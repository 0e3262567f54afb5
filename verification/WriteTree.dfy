/** internal/render/writetree.go: writing an output tree and pruning what earlier runs left behind. */
module WriteTree {
  import opened Basics
  import opened Text
  import opened Sorting

  type Tree = map<string, string>

  const MANIFEST := ".vikasa-manifest"

  /** The paths a directory's manifest lists. */
  function Listed(dir: Tree): set<string>
  {
    if MANIFEST in dir then Lines(dir[MANIFEST]) else {}
  }

  function Lines(text: string): set<string>
  {
    set name <- Split(TrimSpace(text), '\n') | name != ""
  }

  function ManifestText(names: seq<string>): string { Join(names, '\n') + ['\n'] }

  ghost predicate Ascending(names: seq<string>, keys: set<string>)
  {
    && (forall i, j :: 0 <= i < j < |names| ==> Less(names[i], names[j]))
    && forall k :: k in names <==> k in keys
  }

  /** A name that a manifest line carries unchanged, wherever in the list it stands. */
  predicate Clean(name: string)
  {
    name != "" && name != MANIFEST && '\n' !in name && !Space(name[0]) && !Space(name[|name| - 1])
  }

  datatype Run = Run(files: Tree, prune: bool)

  /** What one run makes of a directory. */
  ghost predicate Written(before: Tree, run: Run, after: Tree)
  {
    if run.prune then
      exists names :: Ascending(names, run.files.Keys)
        && after == (before - (Listed(before) - run.files.Keys) + run.files)[MANIFEST := ManifestText(names)]
    else
      after == before + run.files
  }

  // ---- the manifest ----

  lemma {:induction false} JoinEnds(names: seq<string>)
    requires names != [] && forall i :: 0 <= i < |names| ==> names[i] != ""
    ensures Join(names, '\n') != ""
    ensures Join(names, '\n')[0] == names[0][0]
    ensures Join(names, '\n')[|Join(names, '\n')| - 1] == Last(names[|names| - 1])
  {
    if |names| > 1 {
      JoinEnds(names[1..]);
      assert names[1..][|names[1..]| - 1] == names[|names| - 1];
    }
  }

  function Last(s: string): char
    requires s != ""
  {
    s[|s| - 1]
  }

  lemma TrimNewline(s: string)
    requires s != "" && !Space(s[0]) && !Space(Last(s))
    ensures TrimSpace(s + ['\n']) == s
  {
    var text := s + ['\n'];
    assert TrimLeft(text) == text;
    assert text[..|text| - 1] == s;
    assert TrimRight(s) == s;
  }

  /** Reading a manifest back gives the names it was written for. */
  lemma ManifestRoundTrip(names: seq<string>)
    requires forall n <- names :: Clean(n)
    ensures Lines(ManifestText(names)) == set n <- names
  {
    if names == [] {
      assert ManifestText(names) == ['\n'] && ['\n'][1..] == [];
      assert TrimSpace(['\n']) == [];
      SplitEmpty('\n');
    } else {
      forall i | 0 <= i < |names| ensures names[i] != "" { assert names[i] in names; }
      JoinEnds(names);
      assert names[0] in names && names[|names| - 1] in names;
      TrimNewline(Join(names, '\n'));
      SplitJoin(names, '\n');
    }
  }

  /** After a pruning run the manifest lists that run's files; any other run leaves it alone. */
  lemma ListedAfter(before: Tree, run: Run, after: Tree)
    requires Written(before, run, after) && forall n <- run.files :: Clean(n)
    ensures Listed(after) == if run.prune then run.files.Keys else Listed(before)
  {
    if run.prune {
      var names :| Ascending(names, run.files.Keys)
        && after == (before - (Listed(before) - run.files.Keys) + run.files)[MANIFEST := ManifestText(names)];
      ManifestRoundTrip(names);
    }
  }

  // ---- over any sequence of runs ----

  ghost predicate History(trees: seq<Tree>, runs: seq<Run>)
  {
    && |trees| == |runs| + 1
    && (forall i :: 0 <= i < |runs| ==> Written(trees[i], runs[i], trees[i + 1]))
    && forall run <- runs, n <- run.files :: Clean(n)
  }

  ghost predicate Touched(runs: seq<Run>, p: string) { exists run <- runs :: p in run.files }

  ghost predicate Pruning(runs: seq<Run>) { exists run <- runs :: run.prune }

  /** A path no run writes: it goes exactly when it is listed at the start and some run prunes. */
  lemma {:induction false} Untouched(trees: seq<Tree>, runs: seq<Run>, p: string)
    requires History(trees, runs) && p != MANIFEST && !Touched(runs, p)
    ensures var first, last := trees[0], trees[|runs|];
            && (p in last <==> p in first && !(p in Listed(first) && Pruning(runs)))
            && (p in last ==> last[p] == first[p])
    decreases |runs|
  {
    if runs != [] {
      assert runs[0] in runs;
      ListedAfter(trees[0], runs[0], trees[1]);
      forall run | run in runs[1..] ensures run in runs { }
      Untouched(trees[1..], runs[1..], p);
      assert Pruning(runs) <==> runs[0].prune || Pruning(runs[1..]);
    }
  }

  /**
    The last run to write a path fixes its content, and its presence: it stays unless a later run
    prunes and the path was tracked, by that last writer itself or by the manifest it found.
   */
  lemma LastWriterDecides(trees: seq<Tree>, runs: seq<Run>, j: nat, p: string)
    requires History(trees, runs) && j < |runs|
    requires p in runs[j].files && !Touched(runs[j + 1..], p)
    ensures var last := trees[|runs|];
            && (p in last <==> !(Pruning(runs[j + 1..]) && (runs[j].prune || p in Listed(trees[j]))))
            && (p in last ==> last[p] == runs[j].files[p])
  {
    assert runs[j] in runs;
    ListedAfter(trees[j], runs[j], trees[j + 1]);
    forall run | run in runs[j + 1..] ensures run in runs { }
    Untouched(trees[j + 1..], runs[j + 1..], p);
    assert trees[j + 1..][|runs[j + 1..]|] == trees[|runs|];
  }

  lemma LastWriter(runs: seq<Run>, p: string) returns (j: nat)
    requires Touched(runs, p)
    ensures j < |runs| && p in runs[j].files && !Touched(runs[j + 1..], p)
  {
    var k :| 0 <= k < |runs| && p in runs[k].files;
    j := |runs| - 1;
    while p !in runs[j].files
      invariant k <= j < |runs|
      invariant !Touched(runs[j + 1..], p)
      decreases j
    {
      assert runs[j..] == [runs[j]] + runs[j + 1..];
      j := j - 1;
    }
  }

  /**
    When every run prunes, the paths ever written or listed hold exactly the last run's files,
    and every other path is as it was at the start.
   */
  lemma PruningHistory(trees: seq<Tree>, runs: seq<Run>, p: string)
    requires History(trees, runs) && runs != [] && p != MANIFEST
    requires forall run <- runs :: run.prune
    ensures var first, last, latest := trees[0], trees[|runs|], runs[|runs| - 1].files;
            if Touched(runs, p) || p in Listed(first) then
              (p in last <==> p in latest) && (p in latest ==> last[p] == latest[p])
            else
              (p in last <==> p in first) && (p in first ==> last[p] == first[p])
  {
    assert runs[|runs| - 1] in runs;
    if Touched(runs, p) {
      var j := LastWriter(runs, p);
      LastWriterDecides(trees, runs, j, p);
      if j < |runs| - 1 {
        assert runs[j + 1] in runs[j + 1..];
        assert runs[|runs| - 1] in runs[j + 1..];
      } else {
        assert runs[j + 1..] == [];
      }
    } else {
      Untouched(trees, runs, p);
      assert p !in runs[|runs| - 1].files;
      assert Pruning(runs);
    }
  }

  // ---- the directory ----

  class OutputDir {
    var tree: Tree

    method WriteTree(files: Tree, prune: bool)
      modifies this
      ensures Written(old(tree), Run(files, prune), tree)
    {
      var names := SortedKeys(files.Keys);
      assert Ascending(names, files.Keys);
      if prune {
        PruneStale(files);
      }
      WriteFiles(files, names);
      if prune {
        tree := tree[MANIFEST := ManifestText(names)];
      }
    }

    method WriteFiles(files: Tree, names: seq<string>)
      requires forall k :: k in names <==> k in files
      modifies this
      ensures tree == old(tree) + files
    {
      for i := 0 to |names|
        invariant forall p :: p in tree <==> p in old(tree) || p in names[..i]
        invariant forall p :: p in tree ==> tree[p] == if p in names[..i] then files[p] else old(tree)[p]
      {
        assert forall p :: p in names[..i + 1] <==> p in names[..i] || p == names[i] by {
          assert names[..i + 1] == names[..i] + [names[i]];
        }
        tree := tree[names[i] := files[names[i]]];
      }
      assert names[..|names|] == names;
    }

    /** Removes what the last pruning run wrote and this one does not. */
    method PruneStale(files: Tree)
      modifies this
      ensures tree == old(tree) - (Listed(old(tree)) - files.Keys)
    {
      if MANIFEST !in tree {
        return;
      }
      var lines := Split(TrimSpace(tree[MANIFEST]), '\n');
      ghost var stale: set<string> := {};
      for i := 0 to |lines|
        invariant stale == set name <- lines[..i] | name != "" && name !in files
        invariant tree == old(tree) - stale
      {
        assert lines[..i + 1] == lines[..i] + [lines[i]];
        if lines[i] != "" && lines[i] !in files {
          tree := tree - {lines[i]};
          stale := stale + {lines[i]};
        }
      }
      assert lines[..|lines|] == lines;
      assert stale == Listed(old(tree)) - files.Keys;
    }

    method RunAll(runs: seq<Run>) returns (ghost trees: seq<Tree>)
      requires forall run <- runs, n <- run.files :: Clean(n)
      modifies this
      ensures History(trees, runs) && trees[0] == old(tree) && trees[|runs|] == tree
    {
      trees := [tree];
      for i := 0 to |runs|
        invariant |trees| == i + 1 && trees[0] == old(tree) && trees[i] == tree
        invariant forall k :: 0 <= k < i ==> Written(trees[k], runs[k], trees[k + 1])
      {
        WriteTree(runs[i].files, runs[i].prune);
        trees := trees + [tree];
      }
    }
  }

  // ---- MergeInto ----

  class Output {
    var all: Tree

    /** Two renderers may not produce the same path. */
    method MergeInto(part: Tree) returns (o: Outcome<string>)
      modifies this
      ensures o.Pass? <==> old(all).Keys !! part.Keys
      ensures o.Pass? ==> all == old(all) + part
      ensures o.Fail? ==> o.error in old(all) && o.error in part
      ensures forall k <- old(all) :: k in all && all[k] == old(all)[k]
    {
      var todo := part.Keys;
      while todo != {}
        invariant todo <= part.Keys
        invariant old(all).Keys !! part.Keys - todo
        invariant all == old(all) + (part - todo)
      {
        var k :| k in todo;
        if k in all {
          return Fail(k);
        }
        all := all[k := part[k]];
        todo := todo - {k};
      }
      return Pass;
    }
  }
}
