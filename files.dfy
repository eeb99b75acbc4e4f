/**
 * `moveFiles` of src/utils/files.ts. The working directory is a set of entry names, the pattern
 * test `f.match(pattern)` is a predicate given alongside the pattern text, and every `mv` is
 * decided by the host's command oracle. The moves run one after another in the order they settle
 * in, which is a parameter; p-limit's bound of `maxConcurrent` moves in flight is not modelled.
 */
module Files {
  import opened Wrappers
  import opened Builtins
  import opened Constants
  import opened Logging
  import opened Commands
  import opened Effects

  /** The default of the `maxConcurrent` parameter. */
  const DefaultMaxConcurrent: nat := 3

  function NoMatchWarning(pattern: string): string {
    "No files matching pattern \"" + pattern + "\" found to move."
  }

  function FoundLine(count: nat, pattern: string, dest: string): string {
    "Found " + NatToString(count) + " files matching \"" + pattern + "\". Moving to " + dest + "..."
  }

  function MovedLine(file: string, dest: string): string {
    "Moved " + file + " -> " + dest
  }

  function FailedLine(file: string, reason: string): string {
    "Failed to move " + file + ": " + reason
  }

  function AllMovedLine(pattern: string): string {
    "All files matching \"" + pattern + "\" moved successfully."
  }

  // ---------------------------------------------------------------------------------------------
  // The listing and the matched files

  /** `files.filter(f => f.match(pattern))`: the matching names, in listing order. */
  function Filter(listing: seq<string>, matches: string -> bool): (r: seq<string>)
    ensures forall x :: x in r <==> x in listing && matches(x)
  {
    if listing == [] then []
    else (if matches(listing[0]) then [listing[0]] else []) + Filter(listing[1..], matches)
  }

  /** The entries the pattern matches. */
  function Matched(entries: set<string>, matches: string -> bool): set<string> {
    set f | f in entries && matches(f)
  }

  predicate Distinct(s: seq<string>) {
    forall i, j :: 0 <= i < j < |s| ==> s[i] != s[j]
  }

  /** A listing that holds every entry exactly once: what `readdir` returns for a directory. */
  predicate Lists(listing: seq<string>, entries: set<string>) {
    multiset(listing) == multiset(entries)
  }

  /** An element at two positions of a sequence occurs twice in it. */
  lemma TwoPositions(s: seq<string>, k: nat, j: nat)
    requires k < j < |s| && s[k] == s[j]
    ensures multiset(s)[s[k]] >= 2
  {
    assert s == s[..k] + [s[k]] + s[k + 1..j] + [s[j]] + s[j + 1..];
  }

  /** A listing of a set names each entry once, and names exactly the entries. */
  lemma ListingDistinct(listing: seq<string>, entries: set<string>)
    requires Lists(listing, entries)
    ensures Distinct(listing)
    ensures forall x :: x in listing <==> x in entries
  {
    forall k, j | 0 <= k < j < |listing|
      ensures listing[k] != listing[j]
    {
      if listing[k] == listing[j] {
        TwoPositions(listing, k, j);
      }
    }
    assert forall x :: x in listing <==> x in multiset(listing);
  }

  /** Filtering keeps names distinct. */
  lemma {:induction false} FilterDistinct(listing: seq<string>, matches: string -> bool)
    requires Distinct(listing)
    ensures Distinct(Filter(listing, matches))
  {
    if listing != [] {
      var rest := listing[1..];
      assert Distinct(rest) by {
        forall i, j | 0 <= i < j < |rest| ensures rest[i] != rest[j] {
          assert rest[i] == listing[i + 1] && rest[j] == listing[j + 1];
        }
      }
      FilterDistinct(rest, matches);
      assert listing[0] !in rest;
    }
  }

  /**
   * The files `moveFiles` works on, taken from a listing of the directory, are the matched
   * entries, each once.
   */
  lemma MatchedFilesOfListing(listing: seq<string>, entries: set<string>, matches: string -> bool)
    requires Lists(listing, entries)
    ensures Distinct(Filter(listing, matches))
    ensures forall x :: x in Filter(listing, matches) <==> x in Matched(entries, matches)
    ensures Filter(listing, matches) == [] <==> Matched(entries, matches) == {}
  {
    ListingDistinct(listing, entries);
    FilterDistinct(listing, matches);
    if Filter(listing, matches) != [] {
      assert Filter(listing, matches)[0] in Matched(entries, matches);
    }
  }

  // ---------------------------------------------------------------------------------------------
  // One move per matched file

  /** `executeCommand("mv", [join(cwd, file), join(destFolder, file)], { log: false })`. */
  function MoveOf(host: Host, destFolder: string, file: string): Invocation {
    Invocation("mv", [Join(host.cwd, file), Join(destFolder, file)], false)
  }

  predicate MoveSucceeds(host: Host, destFolder: string, file: string) {
    host.run(MoveOf(host, destFolder, file)).Resolved?
  }

  /** `err.stderr ?? err.message`: a command error's stderr, even when empty; any other error's message. */
  function Reason(t: Thrown): string {
    match t
    case Command(e) => e.stderr
    case Plain(message) => message
  }

  /** The one line a move attempt logs: debug when it succeeded, error when it failed. */
  function FileLine(host: Host, destFolder: string, file: string): Call {
    match host.run(MoveOf(host, destFolder, file))
    case Resolved(_) => Call(DEBUG, MovedLine(file, Join(destFolder, file)))
    case Rejected(t) => Call(ERROR, FailedLine(file, Reason(t)))
  }

  /** The lines of the attempts, in the order they were made. */
  function FileLines(host: Host, destFolder: string, files: seq<string>): seq<Call> {
    if files == [] then []
    else FileLines(host, destFolder, files[..|files| - 1]) + [FileLine(host, destFolder, files[|files| - 1])]
  }

  /** The entries left after the attempts on `files`: each successful move takes its file away. */
  function Remaining(entries: set<string>, host: Host, destFolder: string, files: seq<string>): set<string> {
    if files == [] then entries
    else
      var last := files[|files| - 1];
      Remaining(entries, host, destFolder, files[..|files| - 1]) - (if MoveSucceeds(host, destFolder, last) then {last} else {})
  }

  /** The destination paths after the attempts on `files`: each successful move adds one. */
  function Placed(placed: set<string>, host: Host, destFolder: string, files: seq<string>): set<string> {
    if files == [] then placed
    else
      var last := files[|files| - 1];
      Placed(placed, host, destFolder, files[..|files| - 1]) + (if MoveSucceeds(host, destFolder, last) then {Join(destFolder, last)} else {})
  }

  /** The files among `files` whose move succeeds. */
  function Succeeded(host: Host, destFolder: string, files: set<string>): set<string> {
    set f | f in files && MoveSucceeds(host, destFolder, f)
  }

  /** Where the successfully moved files among `files` end up. */
  function Arrivals(host: Host, destFolder: string, files: set<string>): set<string> {
    set f | f in Succeeded(host, destFolder, files) :: Join(destFolder, f)
  }

  /** Whatever the order of the attempts, exactly the files whose move succeeds leave the directory. */
  lemma {:induction false} RemainingIs(entries: set<string>, host: Host, destFolder: string, files: seq<string>)
    ensures Remaining(entries, host, destFolder, files) == entries - Succeeded(host, destFolder, set f | f in files)
  {
    if files != [] {
      var init := files[..|files| - 1];
      var last := files[|files| - 1];
      RemainingIs(entries, host, destFolder, init);
      assert (set f | f in files) == (set f | f in init) + {last} by {
        assert files == init + [last];
      }
    }
  }

  /** Whatever the order of the attempts, exactly the successful moves' destinations appear. */
  lemma {:induction false} PlacedIs(placed: set<string>, host: Host, destFolder: string, files: seq<string>)
    ensures Placed(placed, host, destFolder, files) == placed + Arrivals(host, destFolder, set f | f in files)
  {
    if files != [] {
      var init := files[..|files| - 1];
      var last := files[|files| - 1];
      PlacedIs(placed, host, destFolder, init);
      assert (set f | f in files) == (set f | f in init) + {last} by {
        assert files == init + [last];
      }
    }
  }

  /** Every attempt logs exactly one line, about its own file, in attempt order. */
  lemma {:induction false} OneLinePerAttempt(host: Host, destFolder: string, files: seq<string>)
    ensures |FileLines(host, destFolder, files)| == |files|
    ensures forall k :: 0 <= k < |files| ==> FileLines(host, destFolder, files)[k] == FileLine(host, destFolder, files[k])
  {
    if files != [] {
      var init := files[..|files| - 1];
      OneLinePerAttempt(host, destFolder, init);
      assert forall k :: 0 <= k < |init| ==> init[k] == files[k];
    }
  }

  /** A failed move logs an error naming its file and reason, a successful one a debug line naming its file and destination. */
  lemma FileLineMeaning(host: Host, destFolder: string, file: string)
    ensures FileLine(host, destFolder, file).level == ERROR <==> !MoveSucceeds(host, destFolder, file)
    ensures !MoveSucceeds(host, destFolder, file) ==>
      FileLine(host, destFolder, file).message == FailedLine(file, Reason(host.run(MoveOf(host, destFolder, file)).error))
    ensures MoveSucceeds(host, destFolder, file) ==>
      FileLine(host, destFolder, file) == Call(DEBUG, MovedLine(file, Join(destFolder, file)))
  {
  }

  /** Two orderings of the same names hold the same names. */
  lemma SameElements(a: seq<string>, b: seq<string>)
    requires multiset(a) == multiset(b)
    ensures (set f | f in a) == (set f | f in b)
  {
    assert forall x :: x in a <==> x in multiset(a);
    assert forall x :: x in b <==> x in multiset(b);
  }

  /** A sequence without repeats holds each value at most once. */
  lemma {:induction false} DistinctOnce(s: seq<string>, x: string)
    requires Distinct(s)
    ensures multiset(s)[x] <= 1
  {
    if s != [] {
      var rest := s[1..];
      assert Distinct(rest) by {
        forall i, j | 0 <= i < j < |rest| ensures rest[i] != rest[j] {
          assert rest[i] == s[i + 1] && rest[j] == s[j + 1];
        }
      }
      DistinctOnce(rest, x);
      assert s == [s[0]] + rest;
      assert s[0] !in rest;
    }
  }

  /**
   * Whatever order the moves settle in, every matched entry is attempted exactly once, and the
   * line logged for that attempt is its own: a debug line if it moved, an error line if it did not.
   */
  lemma EachMatchedFileAccounted(host: Host, destFolder: string, listing: seq<string>, entries: set<string>,
                                 matches: string -> bool, attempts: seq<string>, f: string)
    requires Lists(listing, entries) && f in Matched(entries, matches)
    requires multiset(attempts) == multiset(Filter(listing, matches))
    ensures && (exists k :: 0 <= k < |attempts| && attempts[k] == f)
            && (forall k, j :: 0 <= k < |attempts| && 0 <= j < |attempts| && attempts[k] == f && attempts[j] == f ==> k == j)
            && |FileLines(host, destFolder, attempts)| == |attempts|
            && (forall k :: 0 <= k < |attempts| && attempts[k] == f ==> FileLines(host, destFolder, attempts)[k] == FileLine(host, destFolder, f))
  {
    var files := Filter(listing, matches);
    MatchedFilesOfListing(listing, entries, matches);
    OneLinePerAttempt(host, destFolder, attempts);
    assert f in multiset(files);
    assert f in attempts by { assert f in multiset(attempts); }
    DistinctOnce(files, f);
    forall k, j | 0 <= k < |attempts| && 0 <= j < |attempts| && attempts[k] == f && attempts[j] == f
      ensures k == j
    {
      if k < j {
        TwoPositions(attempts, k, j);
      } else if j < k {
        TwoPositions(attempts, j, k);
      }
    }
  }

  /** The destination keeps the file's base name. */
  lemma MoveKeepsName(host: Host, destFolder: string, file: string)
    requires destFolder != "" && file != ""
    ensures var dest := MoveOf(host, destFolder, file).args[1];
      EndsWith(dest, "/" + file) && StartsWith(dest, destFolder)
  {
    var dest := Join(destFolder, file);
    assert dest[|dest| - |"/" + file|..] == "/" + file;
  }

  // ---------------------------------------------------------------------------------------------
  // The directory

  /** The working directory's entries, the paths moves have created elsewhere, and the calls made on the logger. */
  class Workspace {
    var entries: set<string>
    var placed: set<string>
    var logged: seq<Call>

    constructor (entries: set<string>)
      ensures this.entries == entries && placed == {} && logged == []
    {
      this.entries := entries;
      placed := {};
      logged := [];
    }

    /**
     * `moveFiles(pattern, destFolder, log, maxConcurrent = 3)`, given the listing `readdir`
     * returns and the order `attempts` in which the limited moves settle, a permutation of the
     * matched files. Returns what it rejects with, if anything.
     */
    method MoveFiles(host: Host, listing: seq<string>, pattern: string, matches: string -> bool, destFolder: string,
                     maxConcurrent: Option<Num>, attempts: seq<string>)
      returns (thrown: Option<Thrown>)
      requires Lists(listing, entries)
      requires multiset(attempts) == multiset(Filter(listing, matches))
      modifies this
      ensures var m := Matched(old(entries), matches);
        m == {} ==> thrown == None && entries == old(entries) && placed == old(placed)
                    && logged == old(logged) + [Call(WARN, NoMatchWarning(pattern))]
      ensures var m := Matched(old(entries), matches); var limit := maxConcurrent.GetOr(Int(DefaultMaxConcurrent));
        m != {} && PLimit(limit).Some? ==>
          thrown == PLimit(limit) && entries == old(entries) && placed == old(placed)
          && logged == old(logged) + [Call(INFO, FoundLine(|Filter(listing, matches)|, pattern, destFolder))]
      ensures var m := Matched(old(entries), matches); var limit := maxConcurrent.GetOr(Int(DefaultMaxConcurrent));
        var files := Filter(listing, matches);
        m != {} && PLimit(limit).None? ==>
          thrown == None
          && entries == old(entries) - Succeeded(host, destFolder, m)
          && placed == old(placed) + Arrivals(host, destFolder, m)
          && logged == old(logged) + [Call(INFO, FoundLine(|files|, pattern, destFolder))]
                     + FileLines(host, destFolder, attempts) + [Call(INFO, AllMovedLine(pattern))]
      ensures forall f :: f in old(entries) && !matches(f) ==> f in entries
    {
      var files := Filter(listing, matches);
      MatchedFilesOfListing(listing, entries, matches);
      assert (set f | f in files) == Matched(entries, matches);
      if files == [] {
        logged := logged + [Call(WARN, NoMatchWarning(pattern))];
        return None;
      }
      logged := logged + [Call(INFO, FoundLine(|files|, pattern, destFolder))];
      var limit := maxConcurrent.GetOr(Int(DefaultMaxConcurrent));
      thrown := PLimit(limit);
      if thrown.Some? {
        return;
      }
      ghost var before := entries;
      ghost var placedBefore := placed;
      SameElements(attempts, files);
      MoveEach(host, destFolder, attempts);
      RemainingIs(before, host, destFolder, attempts);
      PlacedIs(placedBefore, host, destFolder, attempts);
      logged := logged + [Call(INFO, AllMovedLine(pattern))];
    }

    /** The jobs, one per file and one after another, in the order given. */
    method MoveEach(host: Host, destFolder: string, files: seq<string>)
      modifies this
      ensures entries == Remaining(old(entries), host, destFolder, files)
      ensures placed == Placed(old(placed), host, destFolder, files)
      ensures logged == old(logged) + FileLines(host, destFolder, files)
    {
      for i := 0 to |files|
        invariant entries == Remaining(old(entries), host, destFolder, files[..i])
        invariant placed == Placed(old(placed), host, destFolder, files[..i])
        invariant logged == old(logged) + FileLines(host, destFolder, files[..i])
      {
        assert files[..i + 1][..i] == files[..i];
        MoveOne(host, destFolder, files[i]);
      }
      assert files[..|files|] == files;
    }

    /** The job of one file: `mv`, then a debug line on success or an error line on failure; it never rejects. */
    method MoveOne(host: Host, destFolder: string, f: string)
      modifies this
      ensures entries == old(entries) - (if MoveSucceeds(host, destFolder, f) then {f} else {})
      ensures placed == old(placed) + (if MoveSucceeds(host, destFolder, f) then {Join(destFolder, f)} else {})
      ensures logged == old(logged) + [FileLine(host, destFolder, f)]
    {
      var r := host.run(MoveOf(host, destFolder, f));
      if r.Resolved? {
        entries := entries - {f};
        placed := placed + {Join(destFolder, f)};
        logged := logged + [Call(DEBUG, MovedLine(f, Join(destFolder, f)))];
      } else {
        logged := logged + [Call(ERROR, FailedLine(f, Reason(r.error)))];
      }
    }
  }
}
