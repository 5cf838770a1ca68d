/**
 * What the resolver functions promise: the per-option effects, the order in
 * which a compacted cluster is expanded, and the indices `loopParameters` visits.
 */
module ResolverFacts {
  import opened Wrappers
  import opened Logging
  import opened Resolver

  // ---------------------------------------------------------------------------
  // Single options

  /** `-h` and `-v` change only their own field and skip nothing; `-v` is idempotent. */
  lemma HelpAndVerboseTouchOnlyTheirField(args: seq<string>, fs: FileSystem, c: Config, i: nat)
    ensures Single(args, fs, c, i, Help) == Resolved(c.(help := true), 0)
    ensures Single(args, fs, c, i, Verbose) == Resolved(c.(level := Debug), 0)
    ensures Single(args, fs, Single(args, fs, c, i, Verbose).config, i, Verbose)
            == Single(args, fs, c, i, Verbose)
  {
  }

  /**
   * `-d` and `-s` claim the next token exactly when it lies before the link and
   * does not start with '-'; a dash-prefixed token is never claimed by them.
   */
  lemma WordlistClaimRule(args: seq<string>, fs: FileSystem, c: Config, i: nat, f: Flag)
    requires f == Dirs || f == Subs
    ensures Single(args, fs, c, i, f).shift == 1 <==> HasNext(args, i) && !DashPrefixed(args[i + 1])
    ensures f == Dirs ==> Single(args, fs, c, i, f).config.dirs
    ensures f == Subs ==> Single(args, fs, c, i, f).config.subs
  {
  }

  /** `-d` binds the claimed wordlist, or the default directory list, and records a failed open in `error`. */
  lemma DirsBinding(args: seq<string>, fs: FileSystem, c: Config, i: nat)
    ensures var r := Single(args, fs, c, i, Dirs);
      var path := if Claimable(args, i) then args[i + 1] else DefaultDirs;
      r.config == c.(dirs := true,
                     wordlistDirs := Open(c.wordlistDirs, path, fs.readable),
                     error := c.error || Open(c.wordlistDirs, path, fs.readable).None?)
  {
  }

  /**
   * `-s` with a claimable token binds it to the subdomain slot. Without one it
   * opens the default subdomain list into the DIRECTORY slot, leaves the
   * subdomain slot as it was, and sets `error` unless that slot was already bound,
   * whether or not the default list can be opened.
   */
  lemma SubsBinding(args: seq<string>, fs: FileSystem, c: Config, i: nat)
    ensures var r := Single(args, fs, c, i, Subs);
      if Claimable(args, i) then
        r.config == c.(subs := true,
                       wordlistSubs := Open(c.wordlistSubs, args[i + 1], fs.readable),
                       error := c.error || Open(c.wordlistSubs, args[i + 1], fs.readable).None?)
      else
        r.config == c.(subs := true,
                       wordlistDirs := Open(c.wordlistDirs, DefaultSubs, fs.readable),
                       error := c.error || c.wordlistSubs.None?)
  {
  }

  /**
   * `-o` with no token before the link sets `error`, leaves the output slot alone
   * and skips nothing. With one, it skips it whether or not the open succeeds
   * (even when it starts with '-'), and a failed open sets `error`.
   */
  lemma OutputRule(args: seq<string>, fs: FileSystem, c: Config, i: nat)
    ensures var r := Single(args, fs, c, i, Output);
      if !HasNext(args, i) then r == Resolved(c.(error := true), 0)
      else
        r.shift == 1 &&
        r.config == c.(logFile := Open(c.logFile, args[i + 1], fs.writable),
                       error := c.error || Open(c.logFile, args[i + 1], fs.writable).None?)
  {
  }

  /** A wordlist or output slot that a single option leaves empty after trying to fill it goes with `error`. */
  lemma FailedOpenSetsError(args: seq<string>, fs: FileSystem, c: Config, i: nat, f: Flag)
    requires f != Subs || Claimable(args, i)
    ensures var d := Single(args, fs, c, i, f).config;
      (f == Dirs && d.wordlistDirs.None? ==> d.error) &&
      (f == Subs && d.wordlistSubs.None? ==> d.error) &&
      (f == Output && d.logFile.None? ==> d.error)
  {
  }

  // ---------------------------------------------------------------------------
  // Compacted clusters

  /** The letters the cluster loop visits: the run of cluster letters starting at `index`. */
  function LetterRun(option: string, index: nat): (run: seq<char>)
    requires index <= |option|
    ensures index + |run| <= |option| && run == option[index..index + |run|]
    ensures forall k :: 0 <= k < |run| ==> IsFlagLetter(run[k])
    ensures index + |run| == |option| || !IsFlagLetter(option[index + |run|])
    decreases |option| - index
  {
    if index < |option| && IsFlagLetter(option[index]) then [option[index]] + LetterRun(option, index + 1)
    else []
  }

  /** A stretch of cluster letters from `index` up to a non-letter or the end is the whole run. */
  lemma LetterRunIsMaximal(option: string, index: nat, end: nat)
    requires index <= end <= |option|
    requires forall k :: index <= k < end ==> IsFlagLetter(option[k])
    requires end == |option| || !IsFlagLetter(option[end])
    ensures LetterRun(option, index) == option[index..end]
  {
  }

  /** The letters resolved one after another, each at the index the earlier ones advanced to, up to the first that is no cluster letter. */
  function ApplyLetters(args: seq<string>, fs: FileSystem, c: Config, i: int, letters: seq<char>, shift: int): (r: Step)
    requires 0 <= i
    requires shift == 0 || (shift == 1 && 0 < i && HasNext(args, i - 1))
    ensures r.next >= i && (r.shift == 0 || r.shift == 1)
    ensures r.shift == 1 ==> 0 < r.next && HasNext(args, r.next - 1)
    decreases letters
  {
    if letters == [] || !IsFlagLetter(letters[0]) then Step(c, i, shift)
    else
      var s := Single(args, fs, c, i, LetterFlag(letters[0]));
      ApplyLetters(args, fs, s.config, i + s.shift, letters[1..], s.shift)
  }

  /** The first letter is resolved at `i`, the rest where it left the index. */
  lemma ApplyFirstLetter(args: seq<string>, fs: FileSystem, c: Config, i: int, letters: seq<char>, shift: int)
    requires 0 <= i && letters != [] && IsFlagLetter(letters[0])
    requires shift == 0 || (shift == 1 && 0 < i && HasNext(args, i - 1))
    ensures var s := Single(args, fs, c, i, LetterFlag(letters[0]));
      ApplyLetters(args, fs, c, i, letters, shift) == ApplyLetters(args, fs, s.config, i + s.shift, letters[1..], s.shift)
  {
  }

  /** The cluster loop resolves exactly the run of cluster letters after the first character, left to right. */
  lemma {:induction false} ClusterVisitsLetterRun(args: seq<string>, fs: FileSystem, c: Config, i: int, option: string, index: nat, shift: int)
    requires 0 <= i && index <= |option|
    requires shift == 0 || (shift == 1 && 0 < i && HasNext(args, i - 1))
    ensures ClusterLoop(args, fs, c, i, option, index, shift)
            == ApplyLetters(args, fs, c, i, LetterRun(option, index), shift)
    decreases |option| - index
  {
    var run := LetterRun(option, index);
    if index < |option| && IsFlagLetter(option[index]) {
      ClusterLoopStep(args, fs, c, i, option, index, shift);
      var s := Single(args, fs, c, i, LetterFlag(option[index]));
      ClusterVisitsLetterRun(args, fs, s.config, i + s.shift, option, index + 1, s.shift);
      assert run[0] == option[index] && run[1..] == LetterRun(option, index + 1);
      ApplyFirstLetter(args, fs, c, i, run, shift);
    } else {
      ClusterLoopDone(args, fs, c, i, option, index, shift);
    }
  }

  /**
   * Appending a letter resolves it at the index all earlier letters advanced to,
   * and the result's shift is that last letter's shift alone, not the sum of the shifts.
   */
  lemma {:induction false} ApplyLastLetter(args: seq<string>, fs: FileSystem, c: Config, i: int, letters: seq<char>, x: char, shift: int)
    requires 0 <= i && forall k :: 0 <= k < |letters| ==> IsFlagLetter(letters[k])
    requires IsFlagLetter(x)
    requires shift == 0 || (shift == 1 && 0 < i && HasNext(args, i - 1))
    ensures var p := ApplyLetters(args, fs, c, i, letters, shift);
      var q := Single(args, fs, p.config, p.next, LetterFlag(x));
      ApplyLetters(args, fs, c, i, letters + [x], shift) == Step(q.config, p.next + q.shift, q.shift)
    decreases letters
  {
    if letters == [] {
      assert [] + [x] == [x] && [x][1..] == [];
      ApplyFirstLetter(args, fs, c, i, [x], shift);
    } else {
      var s := Single(args, fs, c, i, LetterFlag(letters[0]));
      assert (letters + [x])[0] == letters[0] && (letters + [x])[1..] == letters[1..] + [x];
      ApplyFirstLetter(args, fs, c, i, letters + [x], shift);
      ApplyFirstLetter(args, fs, c, i, letters, shift);
      ApplyLastLetter(args, fs, s.config, i + s.shift, letters[1..], x, s.shift);
    }
  }

  /** The index after a cluster has advanced by the number of letters that claimed a token, at most one per letter. */
  lemma {:induction false} ApplyAdvance(args: seq<string>, fs: FileSystem, c: Config, i: int, letters: seq<char>, shift: int)
    requires 0 <= i && forall k :: 0 <= k < |letters| ==> IsFlagLetter(letters[k])
    requires shift == 0 || (shift == 1 && 0 < i && HasNext(args, i - 1))
    ensures var r := ApplyLetters(args, fs, c, i, letters, shift);
      i <= r.next <= i + |letters| && (r.next > i ==> r.next < |args| - 1)
    decreases letters
  {
    if letters != [] {
      var s := Single(args, fs, c, i, LetterFlag(letters[0]));
      ApplyAdvance(args, fs, s.config, i + s.shift, letters[1..], s.shift);
    }
  }

  /**
   * Stacked `d`, `s` and `o` letters followed by enough plain tokens before the link
   * each claim one token, in the order of the letters: the k-th letter claims
   * `argv[i + 1 + k]`, and the cluster ends `|letters|` tokens further on.
   */
  lemma {:induction false} StackedLettersClaimInOrder(args: seq<string>, fs: FileSystem, c: Config, i: int, letters: seq<char>, shift: int)
    requires 0 <= i && forall k :: 0 <= k < |letters| ==> letters[k] == 'd' || letters[k] == 's' || letters[k] == 'o'
    requires shift == 0 || (shift == 1 && 0 < i && HasNext(args, i - 1))
    requires i + |letters| < |args| - 1
    requires forall k :: i < k <= i + |letters| ==> !DashPrefixed(args[k])
    ensures var r := ApplyLetters(args, fs, c, i, letters, shift);
      r.next == i + |letters| && (letters != [] ==> r.shift == 1)
    decreases letters
  {
    if letters != [] {
      assert Claimable(args, i);
      var s := Single(args, fs, c, i, LetterFlag(letters[0]));
      assert s.shift == 1;
      StackedLettersClaimInOrder(args, fs, s.config, i + 1, letters[1..], 1);
    }
  }

  /**
   * In the same setting, the k-th letter is resolved at `i + k`, where the earlier
   * letters left the index, and binds `argv[i + 1 + k]`: letters claim tokens in
   * the order they are written, whatever the letters are.
   */
  lemma StackedLetterTakesItsToken(args: seq<string>, fs: FileSystem, c: Config, i: int, letters: seq<char>, shift: int, k: int)
    requires 0 <= i && forall j :: 0 <= j < |letters| ==> letters[j] == 'd' || letters[j] == 's' || letters[j] == 'o'
    requires shift == 0 || (shift == 1 && 0 < i && HasNext(args, i - 1))
    requires i + |letters| < |args| - 1
    requires forall j :: i < j <= i + |letters| ==> !DashPrefixed(args[j])
    requires 0 <= k < |letters|
    ensures var p := ApplyLetters(args, fs, c, i, letters[..k], shift);
      var q := ApplyLetters(args, fs, c, i, letters[..k + 1], shift);
      p.next == i + k && q.next == i + k + 1 && q.shift == 1 &&
      q.config == Single(args, fs, p.config, i + k, LetterFlag(letters[k])).config &&
      (letters[k] == 'd' ==> q.config.wordlistDirs == Open(p.config.wordlistDirs, args[i + 1 + k], fs.readable)) &&
      (letters[k] == 's' ==> q.config.wordlistSubs == Open(p.config.wordlistSubs, args[i + 1 + k], fs.readable)) &&
      (letters[k] == 'o' ==> q.config.logFile == Open(p.config.logFile, args[i + 1 + k], fs.writable))
  {
    StackedLettersClaimInOrder(args, fs, c, i, letters[..k], shift);
    ApplyLastLetter(args, fs, c, i, letters[..k], letters[k], shift);
    assert letters[..k] + [letters[k]] == letters[..k + 1];
    assert Claimable(args, i + k);
  }

  /**
   * A token that spells no option is read as a cluster even when it does not
   * start with '-': its letters from the second character on are resolved.
   * With no cluster letter there, the token is ignored and nothing is skipped.
   */
  lemma UnmatchedTokenIsCluster(args: seq<string>, fs: FileSystem, c: Config, i: nat)
    requires i < |args| && |args[i]| > 0 && Classify(args[i]).None?
    ensures var run := LetterRun(args[i], 1);
      var r := Search(args, fs, c, i, None);
      var a := ApplyLetters(args, fs, c, i, run, 0);
      r == Resolved(a.config, a.shift) &&
      (run == [] ==> r == Resolved(c, 0))
  {
    ClusterVisitsLetterRun(args, fs, c, i, args[i], 1, 0);
  }

  // ---------------------------------------------------------------------------
  // The argument loop

  /**
   * `loopParameters` hands `searchParameters` strictly increasing indices, the
   * first being where it starts, all before the last argument: the link is
   * never resolved as an option.
   */
  lemma {:induction false} LoopVisitsIncreasing(args: seq<string>, fs: FileSystem, c: Config, i: int)
    requires 1 <= i && TokensOk(args)
    ensures var v := LoopFrom(args, fs, c, i).visited;
      (forall k :: 0 <= k < |v| ==> i <= v[k] < |args| - 1) &&
      (forall k, l :: 0 <= k < l < |v| ==> v[k] < v[l]) &&
      (i < |args| - 1 <==> |v| > 0) &&
      (|v| > 0 ==> v[0] == i)
    decreases |args| - i
  {
    if i < |args| - 1 {
      var s := Search(args, fs, c, i, None);
      LoopVisitsIncreasing(args, fs, s.config, i + s.shift + 1);
    }
  }

  /** Consecutive visits are one apart plus the shift returned at the earlier one. */
  lemma LoopStepsByShift(args: seq<string>, fs: FileSystem, c: Config, i: int)
    requires 1 <= i < |args| - 1 && TokensOk(args)
    ensures var s := Search(args, fs, c, i, None);
      var v := LoopFrom(args, fs, c, i).visited;
      v[1..] == LoopFrom(args, fs, s.config, i + s.shift + 1).visited &&
      (|v| > 1 ==> v[1] == i + s.shift + 1)
  {
  }

  // ---------------------------------------------------------------------------
  // Failed opens

  /**
   * A requested wordlist that is not bound goes with `error`. The output file
   * has no flag of its own, so only `-d` and `-s` can be stated this way.
   */
  predicate FailuresFlagged(c: Config) {
    (c.dirs && c.wordlistDirs.None? ==> c.error) && (c.subs && c.wordlistSubs.None? ==> c.error)
  }

  /** One option keeps failed opens flagged; the default branch of `-s` does too, since it tests `wordlistSubs`. */
  lemma SingleKeepsFailuresFlagged(args: seq<string>, fs: FileSystem, c: Config, i: int, f: Flag)
    requires 0 <= i && FailuresFlagged(c)
    ensures FailuresFlagged(Single(args, fs, c, i, f).config)
  {
  }

  lemma {:induction false} LettersKeepFailuresFlagged(args: seq<string>, fs: FileSystem, c: Config, i: int, letters: seq<char>, shift: int)
    requires 0 <= i && FailuresFlagged(c)
    requires shift == 0 || (shift == 1 && 0 < i && HasNext(args, i - 1))
    ensures FailuresFlagged(ApplyLetters(args, fs, c, i, letters, shift).config)
    decreases letters
  {
    if letters != [] && IsFlagLetter(letters[0]) {
      var s := Single(args, fs, c, i, LetterFlag(letters[0]));
      SingleKeepsFailuresFlagged(args, fs, c, i, LetterFlag(letters[0]));
      LettersKeepFailuresFlagged(args, fs, s.config, i + s.shift, letters[1..], s.shift);
    }
  }

  /** One call of `searchParameters`, cluster or not, keeps failed opens flagged. */
  lemma SearchKeepsFailuresFlagged(args: seq<string>, fs: FileSystem, c: Config, i: int, option: Option<string>)
    requires OptionOk(args, i, option) && FailuresFlagged(c)
    ensures FailuresFlagged(Search(args, fs, c, i, option).config)
  {
    var token := if option.None? then args[i] else option.value;
    if Classify(token).Some? {
      SearchExact(args, fs, c, i, option);
      SingleKeepsFailuresFlagged(args, fs, c, i, Classify(token).value);
    } else {
      ClusterVisitsLetterRun(args, fs, c, i, args[i], 1, 0);
      LettersKeepFailuresFlagged(args, fs, c, i, LetterRun(args[i], 1), 0);
    }
  }

  lemma {:induction false} LoopKeepsFailuresFlagged(args: seq<string>, fs: FileSystem, c: Config, i: int)
    requires 1 <= i && TokensOk(args) && FailuresFlagged(c)
    ensures FailuresFlagged(LoopFrom(args, fs, c, i).config)
    decreases |args| - i
  {
    if i < |args| - 1 {
      var s := Search(args, fs, c, i, None);
      SearchKeepsFailuresFlagged(args, fs, c, i, None);
      LoopKeepsFailuresFlagged(args, fs, s.config, i + s.shift + 1);
    }
  }

  /** After the whole pass, `-d` or `-s` without a bound wordlist means `error` is set. */
  lemma ResolveFlagsFailedOpens(args: seq<string>, fs: FileSystem)
    requires TokensOk(args)
    ensures FailuresFlagged(Resolve(args, fs))
  {
    LoopKeepsFailuresFlagged(args, fs, Initial, 1);
  }

  /** With at most the program name and the link, nothing is parsed. */
  lemma {:induction false} ShortCommandLineParsesNothing(args: seq<string>, fs: FileSystem)
    requires |args| <= 2 && TokensOk(args)
    ensures LoopFrom(args, fs, Initial, 1) == Pass(Initial, [])
  {
  }
}
