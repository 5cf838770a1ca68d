/**
 * Two places where fuzzer.cpp does not do what its own comments and usage text
 * say. For each: the behaviour as written, exhibited on a concrete command line,
 * and a corrected definition with the intended property proved about it.
 *
 * 1. The cluster branch returns only the last letter's shift (fuzzer.cpp:251),
 *    so when an earlier letter claimed a token, `loopParameters` resumes on that
 *    token and resolves it again as an option.
 * 2. The default branch of `-s` opens the default list into `wordlistDirs` and
 *    tests `wordlistSubs` (fuzzer.cpp:191-192).
 */
module Findings {
  import opened Wrappers
  import opened Logging
  import opened Resolver
  import opened ResolverFacts

  // ---------------------------------------------------------------------------
  // 1. The shift returned by a cluster

  /** The indices from `lo` up to, not including, `hi`. */
  function Span(lo: int, hi: int): (s: set<int>)
    ensures lo >= hi ==> s == {}
    decreases hi - lo
  {
    if lo >= hi then {} else {lo} + Span(lo + 1, hi)
  }

  /** A span holds exactly the indices between its bounds. */
  lemma {:induction false} SpanMembers(lo: int, hi: int, k: int)
    ensures k in Span(lo, hi) <==> lo <= k < hi
    decreases hi - lo
  {
    if lo < hi {
      SpanMembers(lo + 1, hi, k);
    }
  }

  /** Two adjacent spans make one. */
  lemma {:induction false} SpanJoin(lo: int, mid: int, hi: int)
    requires lo <= mid <= hi
    ensures Span(lo, mid) + Span(mid, hi) == Span(lo, hi)
    decreases mid - lo
  {
    if lo < mid {
      SpanJoin(lo + 1, mid, hi);
    }
  }

  /** The indices of the tokens that a run of cluster letters takes as file arguments. */
  function LettersClaim(args: seq<string>, fs: FileSystem, c: Config, i: int, letters: seq<char>): set<int>
    requires 0 <= i
    decreases letters
  {
    if letters == [] || !IsFlagLetter(letters[0]) then {}
    else
      var s := Single(args, fs, c, i, LetterFlag(letters[0]));
      (if s.shift == 1 then {i + 1} else {}) + LettersClaim(args, fs, s.config, i + s.shift, letters[1..])
  }

  /** The letters of a cluster take the tokens right after it, one after another, up to where the index stopped. */
  lemma {:induction false} LettersClaimContiguous(args: seq<string>, fs: FileSystem, c: Config, i: int, letters: seq<char>, shift: int)
    requires 0 <= i
    requires shift == 0 || (shift == 1 && 0 < i && HasNext(args, i - 1))
    ensures LettersClaim(args, fs, c, i, letters) == Span(i + 1, ApplyLetters(args, fs, c, i, letters, shift).next + 1)
    decreases letters
  {
    if letters != [] && IsFlagLetter(letters[0]) {
      var s := Single(args, fs, c, i, LetterFlag(letters[0]));
      LettersClaimContiguous(args, fs, s.config, i + s.shift, letters[1..], s.shift);
    }
  }

  /** The indices of the tokens one call of `searchParameters` at `i` takes as file arguments. */
  function Claims(args: seq<string>, fs: FileSystem, c: Config, i: int): set<int>
    requires 0 <= i < |args| && |args[i]| > 0
  {
    match Classify(args[i])
    case Some(f) => if Single(args, fs, c, i, f).shift == 1 then {i + 1} else {}
    case None => LettersClaim(args, fs, c, i, LetterRun(args[i], 1))
  }

  /**
   * `searchParameters` with the cluster returning the number of tokens all its
   * letters took, as its usage text describes. Everything else is as written.
   */
  function SearchCorrected(args: seq<string>, fs: FileSystem, c: Config, i: int): (r: Resolved)
    requires 0 <= i < |args| && |args[i]| > 0
    ensures r.config == Search(args, fs, c, i, None).config
    ensures r.shift >= 0 && (r.shift > 0 ==> i + r.shift < |args| - 1)
  {
    match Classify(args[i])
    case Some(f) => Single(args, fs, c, i, f)
    case None =>
      ClusterVisitsLetterRun(args, fs, c, i, args[i], 1, 0);
      ApplyAdvance(args, fs, c, i, LetterRun(args[i], 1), 0);
      var st := ClusterLoop(args, fs, c, i, args[i], 1, 0);
      Resolved(st.config, st.next - i)
  }

  /** The corrected shift skips exactly the tokens the call took as file arguments. */
  lemma CorrectedShiftSkipsClaims(args: seq<string>, fs: FileSystem, c: Config, i: int)
    requires 0 <= i < |args| && |args[i]| > 0
    ensures Claims(args, fs, c, i) == Span(i + 1, i + SearchCorrected(args, fs, c, i).shift + 1)
  {
    if Classify(args[i]).None? {
      ClusterVisitsLetterRun(args, fs, c, i, args[i], 1, 0);
      LettersClaimContiguous(args, fs, c, i, LetterRun(args[i], 1), 0);
    }
  }

  /** A pass over the arguments: the parameters, the indices resolved as options and the indices taken as file arguments. */
  datatype Trace = Trace(config: Config, visited: seq<int>, claimed: set<int>)

  /**
   * As written: in `fuzzer -dv wh.txt http://t`, `-d` takes "wh.txt" but the
   * cluster returns the shift of `v`, 0; the loop then resolves "wh.txt" as a
   * cluster, whose second character 'h' turns on help.
   */
  lemma ClusterRereadsClaimedToken(fs: FileSystem)
    requires "wh.txt" in fs.readable
    ensures var args := ["fuzzer", "-dv", "wh.txt", "http://t"];
      var p := LoopFrom(args, fs, Initial, 1);
      Claims(args, fs, Initial, 1) == {2} && p.visited == [1, 2] && p.config.help
  {
    var args := ["fuzzer", "-dv", "wh.txt", "http://t"];
    var c1 := Initial.(dirs := true, wordlistDirs := Some("wh.txt"));
    var c2 := c1.(level := Debug);
    var c3 := c2.(help := true);
    assert Single(args, fs, Initial, 1, Dirs) == Resolved(c1, 1);
    assert ClusterLoop(args, fs, c1, 2, "-dv", 2, 1) == Step(c2, 2, 0);
    assert ClusterLoop(args, fs, Initial, 1, "-dv", 1, 0) == Step(c2, 2, 0);
    assert Search(args, fs, Initial, 1, None) == Resolved(c2, 0);
    assert LetterRun("-dv", 1) == ['d', 'v'];
    assert ['d', 'v'][1..] == ['v'];
    assert LettersClaim(args, fs, c1, 2, ['v']) == {};
    assert LettersClaim(args, fs, Initial, 1, ['d', 'v']) == {2};
    assert Claims(args, fs, Initial, 1) == {2};
    assert ClusterLoop(args, fs, c2, 2, "wh.txt", 1, 0) == Step(c3, 2, 0);
    assert Search(args, fs, c2, 2, None) == Resolved(c3, 0);
    assert LoopFrom(args, fs, c3, 3) == Pass(c3, []);
    assert LoopFrom(args, fs, c2, 2) == Pass(c3, [2]);
  }

  /** The indices a sequence holds. */
  function Elems(v: seq<int>): set<int>
    decreases |v|
  {
    if v == [] then {} else {v[0]} + Elems(v[1..])
  }

  /**
   * Every index from `i` up to, not including, `n` is either in `visited` or in
   * `claimed`, never in both, and neither holds anything else.
   */
  predicate Partitions(visited: seq<int>, claimed: set<int>, i: int, n: int) {
    Elems(visited) + claimed == Span(i, n) && Elems(visited) * claimed == {}
  }

  /** Nothing to partition once the walk has reached the link. */
  lemma PartitionsEmpty(i: int, n: int)
    requires n <= i
    ensures Partitions([], {}, i, n)
  {
    assert Elems([]) == {};
  }

  /** One step of the corrected walk: visit `i`, claim the tokens up to `j - 1`, go on from `j`. */
  lemma PartitionsStep(visited: seq<int>, claimed: set<int>, i: int, j: int, n: int)
    requires i < j <= n
    requires Partitions(visited, claimed, j, n)
    ensures Partitions([i] + visited, Span(i + 1, j) + claimed, i, n)
  {
    assert ([i] + visited)[1..] == visited;
    assert Elems([i] + visited) == {i} + Elems(visited);
    SpanJoin(i + 1, j, n);
    assert Span(i, n) == {i} + Span(i + 1, n);
    forall k | k in Span(i + 1, j)
      ensures k !in Span(j, n)
    {
      SpanMembers(i + 1, j, k);
      SpanMembers(j, n, k);
    }
    SpanMembers(i + 1, j, i);
    SpanMembers(j, n, i);
  }

  /**
   * `loopParameters` from `i` with the corrected shift, recording the indices
   * resolved as options and the indices each call took as file arguments
   * (`Claims`). Corrected, every token between the program name and the link is
   * either resolved as an option or taken as a file argument, never both.
   */
  function WalkCorrected(args: seq<string>, fs: FileSystem, c: Config, i: int): (t: Trace)
    requires 1 <= i && TokensOk(args)
    ensures Partitions(t.visited, t.claimed, i, |args| - 1)
    decreases |args| - i
  {
    if i < |args| - 1 then
      var s := SearchCorrected(args, fs, c, i);
      var rest := WalkCorrected(args, fs, s.config, i + s.shift + 1);
      CorrectedShiftSkipsClaims(args, fs, c, i);
      PartitionsStep(rest.visited, rest.claimed, i, i + s.shift + 1, |args| - 1);
      Trace(rest.config, [i] + rest.visited, Claims(args, fs, c, i) + rest.claimed)
    else
      PartitionsEmpty(i, |args| - 1);
      Trace(c, [], {})
  }

  /** Corrected, `fuzzer -dv wh.txt http://t` leaves help off. */
  lemma CorrectedClusterSkipsClaimedToken(fs: FileSystem)
    requires "wh.txt" in fs.readable
    ensures !WalkCorrected(["fuzzer", "-dv", "wh.txt", "http://t"], fs, Initial, 1).config.help
  {
    var args := ["fuzzer", "-dv", "wh.txt", "http://t"];
    var c1 := Initial.(dirs := true, wordlistDirs := Some("wh.txt"));
    assert ClusterLoop(args, fs, c1, 2, "-dv", 2, 1) == Step(c1.(level := Debug), 2, 0);
    assert SearchCorrected(args, fs, Initial, 1) == Resolved(c1.(level := Debug), 1);
  }

  // ---------------------------------------------------------------------------
  // 2. The default subdomain list

  /**
   * As written: `fuzzer -s http://t` with the default subdomain list readable
   * binds that list to the directory slot, leaves the subdomain slot empty and
   * ends in the error text.
   */
  lemma SubsDefaultGoesToDirectorySlot(fs: FileSystem)
    requires DefaultSubs in fs.readable
    ensures Resolve(["fuzzer", "-s", "http://t"], fs)
            == Initial.(subs := true, error := true, wordlistDirs := Some(DefaultSubs))
  {
    var args := ["fuzzer", "-s", "http://t"];
    var c := Initial.(subs := true, error := true, wordlistDirs := Some(DefaultSubs));
    assert Search(args, fs, Initial, 1, None) == Resolved(c, 0);
    assert LoopFrom(args, fs, c, 2).config == c;
  }

  /** `-s` with no claimable token, corrected: the default list goes to the subdomain slot, and that slot is tested. */
  function SubsDefaultCorrected(c: Config, fs: FileSystem): (d: Config)
    ensures d.wordlistDirs == c.wordlistDirs
    ensures d.wordlistSubs == Open(c.wordlistSubs, DefaultSubs, fs.readable)
    ensures d.subs && (d.error <==> c.error || d.wordlistSubs.None?)
  {
    var slot := Open(c.wordlistSubs, DefaultSubs, fs.readable);
    c.(subs := true, wordlistSubs := slot, error := c.error || slot.None?)
  }

  /** Corrected, `-s` alone on a fresh object with the default list readable binds it and raises no error. */
  lemma CorrectedSubsDefaultBinds(fs: FileSystem)
    requires DefaultSubs in fs.readable
    ensures SubsDefaultCorrected(Initial, fs)
            == Initial.(subs := true, wordlistSubs := Some(DefaultSubs))
  {
  }
}
