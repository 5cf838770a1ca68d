/**
 * The argument resolver of fuzzer.cpp as functions on values: what one call of
 * `searchParameters` and one run of `loopParameters` do to the parameters.
 * The `Parameters` class and the methods that walk `argv` (module Params) are
 * proved equal to these functions; the lemmas here state what the source promises.
 *
 * File opening is an oracle: `FileSystem` says which paths open for reading
 * (the wordlists, `ifstream`) and which for writing (the output file, `ofstream`).
 */
module Resolver {
  import opened Wrappers
  import opened Logging

  datatype FileSystem = FileSystem(readable: set<string>, writable: set<string>)

  const DefaultDirs := "/usr/share/wordlists/dirb/big.txt"
  const DefaultSubs := "/usr/share/wordlists/subs/medium.txt"

  /**
   * `stream.open(path)` on a slot that holds the path of the open file or None.
   * Opening a stream that is already open fails and leaves the old file bound,
   * so `is_open()` (here `Some?`) stays true.
   */
  function Open(slot: Option<string>, path: string, openable: set<string>): (r: Option<string>)
    ensures slot.Some? ==> r == slot
    ensures slot.None? ==> (r.Some? <==> path in openable)
    ensures slot.None? && r.Some? ==> r == Some(path)
  {
    if slot.Some? then slot
    else if path in openable then Some(path)
    else None
  }

  /** The value view of a `Parameters` object, without its link. */
  datatype Config = Config(
    dirs: bool,
    subs: bool,
    help: bool,
    error: bool,
    level: LogLevel,
    wordlistSubs: Option<string>,
    wordlistDirs: Option<string>,
    logFile: Option<string>)

  /** What the `Parameters` constructor sets. */
  const Initial := Config(false, false, false, false, Info, None, None, None)

  /**
   * The later configuration keeps everything the earlier one had: the four flags
   * only go from false to true, the level only moves to DEBUG, and a bound slot
   * keeps its file.
   */
  predicate Grows(c: Config, d: Config) {
    (c.dirs ==> d.dirs) && (c.subs ==> d.subs) && (c.help ==> d.help) && (c.error ==> d.error) &&
    (d.level == c.level || d.level == Debug) &&
    (c.wordlistSubs.Some? ==> d.wordlistSubs == c.wordlistSubs) &&
    (c.wordlistDirs.Some? ==> d.wordlistDirs == c.wordlistDirs) &&
    (c.logFile.Some? ==> d.logFile == c.logFile)
  }

  lemma GrowsTransitive(c: Config, d: Config, e: Config)
    requires Grows(c, d) && Grows(d, e)
    ensures Grows(c, e)
  {
  }

  /** The levels a parse can leave behind: INFO from the constructor, DEBUG from `-v`. */
  predicate LevelReachable(c: Config) {
    c.level == Info || c.level == Debug
  }

  /** The five options; each has a short and a long spelling. */
  datatype Flag = Dirs | Subs | Help | Verbose | Output

  /** The `strcmp` chain of `searchParameters`: which option the token spells exactly. */
  function Classify(option: string): Option<Flag> {
    if |option| == 2 && option[0] == '-' && IsFlagLetter(option[1]) then Some(LetterFlag(option[1]))
    else if option == "--directories" then Some(Dirs)
    else if option == "--subdomains" then Some(Subs)
    else if option == "--help" then Some(Help)
    else if option == "--verbose" then Some(Verbose)
    else if option == "--output" then Some(Output)
    else None
  }

  /**
   * Each option has exactly two spellings: the short "-x" and the long form, as
   * the pairs of `strcmp` tests compare them. No other token spells an option.
   */
  lemma ClassifySpellings(option: string)
    ensures Classify(option) == Some(Dirs) <==> option == "-d" || option == "--directories"
    ensures Classify(option) == Some(Subs) <==> option == "-s" || option == "--subdomains"
    ensures Classify(option) == Some(Help) <==> option == "-h" || option == "--help"
    ensures Classify(option) == Some(Verbose) <==> option == "-v" || option == "--verbose"
    ensures Classify(option) == Some(Output) <==> option == "-o" || option == "--output"
  {
  }

  /** The letters a compacted cluster may stack. */
  predicate IsFlagLetter(ch: char) {
    ch == 'd' || ch == 's' || ch == 'h' || ch == 'v' || ch == 'o'
  }

  /** The option a cluster letter stands for. */
  function LetterFlag(ch: char): Flag
    requires IsFlagLetter(ch)
  {
    match ch
    case 'd' => Dirs
    case 's' => Subs
    case 'h' => Help
    case 'v' => Verbose
    case 'o' => Output
  }

  /** The two-character token "-x" the cluster branch builds for a letter. */
  function Synthesized(ch: char): string {
    ['-', ch]
  }

  /** A synthesized token always hits the single-option branch of its letter. */
  lemma SynthesizedIsExact(ch: char)
    requires IsFlagLetter(ch)
    ensures Classify(Synthesized(ch)) == Some(LetterFlag(ch))
  {
  }

  predicate DashPrefixed(token: string) {
    |token| > 0 && token[0] == '-'
  }

  /** There is a token after position `i` that is not the last argument (the link). */
  predicate HasNext(args: seq<string>, i: int) {
    i + 1 < |args| - 1
  }

  /**
   * The lookahead rule: `i + 1` is an argument other than the last one (the link),
   * and `-d`/`-s` take it only when its first character is not '-'. The first
   * character of an empty C string is its terminator, so an empty token is taken.
   */
  lemma LookaheadRule(args: seq<string>, i: int)
    requires 0 <= i
    ensures HasNext(args, i) <==> i + 1 < |args| && i + 1 != |args| - 1
    ensures Claimable(args, i) <==> HasNext(args, i) && (args[i + 1] == [] || args[i + 1][0] != '-')
  {
  }

  /** `-d` and `-s` take the next token as their wordlist only when it exists, is not the link and does not start with '-'. */
  predicate Claimable(args: seq<string>, i: int)
    requires 0 <= i
  {
    HasNext(args, i) && !DashPrefixed(args[i + 1])
  }

  /** The parameters after one call of `searchParameters`, and the number of tokens it returns as skipped. */
  datatype Resolved = Resolved(config: Config, shift: int)

  /**
   * One option applied at argument index `i` (the branches of `searchParameters`
   * for an exact match). Note the default branch of `-s`: it opens the default
   * subdomain list into the directory slot and then tests the subdomain slot.
   */
  function Single(args: seq<string>, fs: FileSystem, c: Config, i: int, f: Flag): (r: Resolved)
    requires 0 <= i
    ensures r.shift == 0 || r.shift == 1
    ensures r.shift == 1 ==> HasNext(args, i)
    ensures Grows(c, r.config)
  {
    match f
    case Dirs =>
      var c1 := c.(dirs := true);
      if Claimable(args, i) then
        var slot := Open(c1.wordlistDirs, args[i + 1], fs.readable);
        Resolved(c1.(wordlistDirs := slot, error := c1.error || slot.None?), 1)
      else
        var slot := Open(c1.wordlistDirs, DefaultDirs, fs.readable);
        Resolved(c1.(wordlistDirs := slot, error := c1.error || slot.None?), 0)
    case Subs =>
      var c1 := c.(subs := true);
      if Claimable(args, i) then
        var slot := Open(c1.wordlistSubs, args[i + 1], fs.readable);
        Resolved(c1.(wordlistSubs := slot, error := c1.error || slot.None?), 1)
      else
        var slot := Open(c1.wordlistDirs, DefaultSubs, fs.readable);
        Resolved(c1.(wordlistDirs := slot, error := c1.error || c1.wordlistSubs.None?), 0)
    case Help =>
      Resolved(c.(help := true), 0)
    case Verbose =>
      Resolved(c.(level := Debug), 0)
    case Output =>
      if !HasNext(args, i) then
        Resolved(c.(error := true), 0)
      else
        var slot := Open(c.logFile, args[i + 1], fs.writable);
        Resolved(c.(logFile := slot, error := c.error || slot.None?), 1)
  }

  /** State of the cluster loop: parameters, the advanced argument index and the last shift. */
  datatype Step = Step(config: Config, next: int, shift: int)

  /** The caller hands `searchParameters` either nothing (it reads `argv[i]`) or a synthesized single-option token. */
  predicate OptionOk(args: seq<string>, i: int, option: Option<string>) {
    0 <= i &&
    match option
    case None => i < |args| && |args[i]| > 0
    case Some(token) => Classify(token).Some?
  }

  /**
   * `searchParameters(argc, argv, pm, i, option)`. The returned shift is 0 or 1,
   * and 1 only when a token strictly before the link was available at `i + 1`.
   * A synthesized token always spells an option; `argv[i]` that spells none is
   * expanded as a cluster.
   */
  function Search(args: seq<string>, fs: FileSystem, c: Config, i: int, option: Option<string>): (r: Resolved)
    requires OptionOk(args, i, option)
    ensures r.shift == 0 || r.shift == 1
    ensures r.shift == 1 ==> HasNext(args, i)
    ensures Grows(c, r.config)
    decreases if option.None? then 2 else 0, 0
  {
    match option
    case Some(token) => Single(args, fs, c, i, Classify(token).value)
    case None =>
      match Classify(args[i])
      case Some(f) => Single(args, fs, c, i, f)
      case None =>
        var st := ClusterLoop(args, fs, c, i, args[i], 1, 0);
        Resolved(st.config, st.shift)
  }

  /**
   * The cluster branch of `searchParameters`: from character `index` on, while the
   * character is a cluster letter, resolve its synthesized token by a recursive
   * call at the current index, advance the index by the returned shift and keep
   * that shift.
   */
  function ClusterLoop(args: seq<string>, fs: FileSystem, c: Config, i: int, option: string, index: nat, shift: int): (r: Step)
    requires 0 <= i && index <= |option|
    requires shift == 0 || (shift == 1 && 0 < i && HasNext(args, i - 1))
    ensures r.next >= i
    ensures r.shift == 0 || r.shift == 1
    ensures r.shift == 1 ==> 0 < r.next && HasNext(args, r.next - 1)
    ensures r.next - i >= r.shift - shift
    ensures Grows(c, r.config)
    decreases 1, |option| - index
  {
    if index < |option| && IsFlagLetter(option[index]) then
      SynthesizedIsExact(option[index]);
      var s := Search(args, fs, c, i, Some(Synthesized(option[index])));
      GrowsTransitive(c, s.config, ClusterLoop(args, fs, s.config, i + s.shift, option, index + 1, s.shift).config);
      ClusterLoop(args, fs, s.config, i + s.shift, option, index + 1, s.shift)
    else
      Step(c, i, shift)
  }

  /** One turn of the cluster loop: a cluster letter is resolved by its own option's branch. */
  lemma ClusterLoopStep(args: seq<string>, fs: FileSystem, c: Config, i: int, option: string, index: nat, shift: int)
    requires 0 <= i && index < |option| && IsFlagLetter(option[index])
    requires shift == 0 || (shift == 1 && 0 < i && HasNext(args, i - 1))
    ensures var s := Single(args, fs, c, i, LetterFlag(option[index]));
      ClusterLoop(args, fs, c, i, option, index, shift)
      == ClusterLoop(args, fs, s.config, i + s.shift, option, index + 1, s.shift)
  {
    SynthesizedIsExact(option[index]);
  }

  /** The cluster loop stops at the end of the token or at a character that is no cluster letter. */
  lemma ClusterLoopDone(args: seq<string>, fs: FileSystem, c: Config, i: int, option: string, index: nat, shift: int)
    requires 0 <= i && index <= |option| && (index == |option| || !IsFlagLetter(option[index]))
    requires shift == 0 || (shift == 1 && 0 < i && HasNext(args, i - 1))
    ensures ClusterLoop(args, fs, c, i, option, index, shift) == Step(c, i, shift)
  {
  }

  /** A token that spells an option exactly is resolved by that option's branch alone. */
  lemma SearchExact(args: seq<string>, fs: FileSystem, c: Config, i: int, option: Option<string>)
    requires OptionOk(args, i, option)
    ensures var token := if option.None? then args[i] else option.value;
      Classify(token).Some? ==> Search(args, fs, c, i, option) == Single(args, fs, c, i, Classify(token).value)
  {
  }

  /** Every token `loopParameters` can hand over is non-empty (the cluster branch reads its second character). */
  predicate TokensOk(args: seq<string>) {
    forall k :: 1 <= k < |args| - 1 ==> |args[k]| > 0
  }

  /** The parameters after `loopParameters` and the indices it handed to `searchParameters`, in order. */
  datatype Pass = Pass(config: Config, visited: seq<int>)

  /** `loopParameters` from index `i` on: resolve `argv[i]`, then skip the returned shift plus one. */
  function LoopFrom(args: seq<string>, fs: FileSystem, c: Config, i: int): (r: Pass)
    requires 1 <= i && TokensOk(args)
    ensures Grows(c, r.config)
    decreases |args| - i
  {
    if i < |args| - 1 then
      var s := Search(args, fs, c, i, None);
      var rest := LoopFrom(args, fs, s.config, i + s.shift + 1);
      GrowsTransitive(c, s.config, rest.config);
      Pass(rest.config, [i] + rest.visited)
    else
      Pass(c, [])
  }

  /** The parameters at the end of a pass from `i` are those at the end of the pass after the first call. */
  lemma LoopFromConfigStep(args: seq<string>, fs: FileSystem, c: Config, i: int, d: Config, shift: int)
    requires 1 <= i < |args| - 1 && TokensOk(args)
    requires Search(args, fs, c, i, None) == Resolved(d, shift)
    ensures 1 <= i + shift + 1
    ensures LoopFrom(args, fs, c, i).config == LoopFrom(args, fs, d, i + shift + 1).config
  {
  }

  /** A pass that starts at the link, or beyond it, changes nothing. */
  lemma LoopFromDone(args: seq<string>, fs: FileSystem, c: Config, i: int)
    requires 1 <= i && |args| - 1 <= i && TokensOk(args)
    ensures LoopFrom(args, fs, c, i) == Pass(c, [])
  {
  }

  /** The parameters `main` obtains from a fresh `Parameters` object. */
  function Resolve(args: seq<string>, fs: FileSystem): (c: Config)
    requires TokensOk(args)
    ensures Grows(Initial, c) && LevelReachable(c)
  {
    LoopFrom(args, fs, Initial, 1).config
  }
}
