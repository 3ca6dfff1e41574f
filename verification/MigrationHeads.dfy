// The schema heads of scripts/release_schema_heads.py. A file is what its module-level
// assignments say: a revision, if any, and the revisions directly below it.
module MigrationHeads {
  import opened Options
  import opened Sequences
  import opened StringOrder

  datatype File = File(revision: Option<string>, down: seq<string>)

  // A file without a revision says nothing.
  predicate Named(f: File) { f.revision.Some? && f.revision.value != "" }

  ghost predicate IsRevision(files: seq<File>, r: string) {
    exists f | f in files :: Named(f) && f.revision.value == r
  }

  ghost predicate Referenced(files: seq<File>, r: string) {
    exists f | f in files :: Named(f) && r in f.down
  }

  // Revision `child` was made on top of `parent`.
  ghost predicate OnTop(files: seq<File>, child: string, parent: string) {
    exists f | f in files :: Named(f) && f.revision.value == child && parent in f.down
  }

  ghost predicate IsHead(files: seq<File>, r: string) { IsRevision(files, r) && !Referenced(files, r) }

  // The loop over the members of the archive.
  method HeadsAt(files: seq<File>) returns (heads: seq<string>)
    ensures Increasing(heads) && forall r :: r in heads <==> IsHead(files, r)
  {
    var revisions: set<string>, referenced: set<string> := {}, {};
    for i := 0 to |files|
      invariant forall r :: r in revisions <==> IsRevision(files[..i], r)
      invariant forall r :: r in referenced <==> Referenced(files[..i], r)
    {
      var f := files[i];
      TakeMore(files, i);
      FileMore(files[..i], f);
      if Named(f) {
        revisions := revisions + {f.revision.value};
        referenced := referenced + set d | d in f.down;
      }
    }
    TakeAll(files);
    heads := Sorted(revisions - referenced);
  }

  lemma FileMore(files: seq<File>, f: File)
    ensures forall r :: IsRevision(files + [f], r) <==> IsRevision(files, r) || (Named(f) && f.revision.value == r)
    ensures forall r :: Referenced(files + [f], r) <==> Referenced(files, r) || (Named(f) && r in f.down)
  {
    assert forall g :: g in files + [f] <==> g in files || g == f;
  }

  // ---------- Order of reading ----------

  lemma SameFilesSameHeads(files: seq<File>, others: seq<File>)
    requires forall f :: f in files <==> f in others
    ensures forall r :: IsHead(files, r) <==> IsHead(others, r)
  {
    forall r
      ensures IsRevision(files, r) <==> IsRevision(others, r)
      ensures Referenced(files, r) <==> Referenced(others, r)
    {
    }
  }

  // ---------- Below a head ----------

  // A line of descent, newest first.
  ghost predicate Descent(files: seq<File>, p: seq<string>) {
    && p != [] && (forall i | 0 <= i < |p| :: IsRevision(files, p[i]))
    && forall i | 0 <= i < |p| - 1 :: OnTop(files, p[i], p[i + 1])
  }

  ghost predicate From(files: seq<File>, p: seq<string>, top: string, bottom: string) {
    Descent(files, p) && p[0] == top && p[|p| - 1] == bottom
  }

  ghost predicate Below(files: seq<File>, bottom: string, top: string) {
    exists p :: From(files, p, top, bottom)
  }

  // No revision descends from itself.
  ghost predicate Acyclic(files: seq<File>) {
    forall p | Descent(files, p) && |p| > 1 :: p[0] != p[|p| - 1]
  }

  function Names(files: seq<File>): set<string> {
    set f | f in files && f.revision.Some? :: f.revision.value
  }

  ghost predicate Distinct(p: seq<string>) { forall i, j | 0 <= i < j < |p| :: p[i] != p[j] }

  lemma DistinctFits(p: seq<string>, names: set<string>)
    requires Distinct(p) && forall x | x in p :: x in names
    ensures |p| <= |names|
  {
    DistinctSize(p);
    SubsetSize(Elements(p), names);
  }

  lemma DescentNames(files: seq<File>, p: seq<string>)
    requires Descent(files, p)
    ensures forall x | x in p :: x in Names(files)
  {
    forall x | x in p
      ensures x in Names(files)
    {
      var i :| 0 <= i < |p| && p[i] == x;
      var f :| f in files && Named(f) && f.revision.value == x;
    }
  }

  lemma PrefixOfDescent(files: seq<File>, p: seq<string>, n: nat)
    requires Descent(files, p) && 0 < n <= |p|
    ensures Descent(files, p[..n])
  {
  }

  lemma Extended(files: seq<File>, p: seq<string>, child: string)
    requires Descent(files, p) && OnTop(files, child, p[0])
    ensures Descent(files, [child] + p)
  {
    var q := [child] + p;
    forall i | 0 <= i < |q|
      ensures IsRevision(files, q[i]) && (i < |q| - 1 ==> OnTop(files, q[i], q[i + 1]))
    {
      if i > 0 {
        assert q[i] == p[i - 1];
      }
    }
  }

  // Climbing from any revision ends at a head: no revision is met twice.
  lemma {:induction false} Climb(files: seq<File>, p: seq<string>) returns (head: string)
    requires Acyclic(files) && Descent(files, p) && Distinct(p)
    ensures IsHead(files, head) && Below(files, p[|p| - 1], head)
    decreases |Names(files)| - |p|
  {
    DescentNames(files, p);
    DistinctFits(p, Names(files));
    if f :| f in files && Named(f) && p[0] in f.down {
      var child := f.revision.value;
      var q := [child] + p;
      Extended(files, p, child);
      forall i | 0 <= i < |p|
        ensures child != p[i]
      {
        PrefixOfDescent(files, q, i + 2);
        assert q[..i + 2][0] == child && q[..i + 2][i + 1] == p[i];
      }
      DescentNames(files, q);
      DistinctFits(q, Names(files));
      head := Climb(files, q);
    } else {
      head := p[0];
      assert From(files, p, head, p[|p| - 1]);
    }
  }

  // Every revision of an acyclic tree lies below a head, or is one.
  lemma EveryRevisionHasAHead(files: seq<File>, r: string)
    requires Acyclic(files) && IsRevision(files, r)
    ensures exists head :: IsHead(files, head) && Below(files, r, head)
  {
    var head := Climb(files, [r]);
  }

  // ---------- The table ----------

  // The tree at a tag; a tag without the directory has no files.
  function TreeAt(trees: map<string, seq<File>>, tag: string): seq<File> {
    if tag in trees then trees[tag] else []
  }

  ghost predicate OnlyHead(files: seq<File>, head: string) {
    forall r :: IsHead(files, r) <==> r == head
  }

  method Build(tags: seq<string>, trees: map<string, seq<File>>) returns (table: map<string, string>)
    ensures forall t | t in table :: t in tags && OnlyHead(TreeAt(trees, t), table[t])
    ensures forall t, h | t in tags && OnlyHead(TreeAt(trees, t), h) :: t in table
  {
    table := map[];
    for i := 0 to |tags|
      invariant forall t | t in table :: t in tags && OnlyHead(TreeAt(trees, t), table[t])
      invariant forall t, h | t in tags[..i] && OnlyHead(TreeAt(trees, t), h) :: t in table
    {
      var tag := tags[i];
      var heads := HeadsAt(TreeAt(trees, tag));
      TakeMore(tags, i);
      OneHead(TreeAt(trees, tag), heads);
      if |heads| == 1 {
        table := table[tag := heads[0]];
      }
    }
    TakeAll(tags);
  }

  lemma OneHead(files: seq<File>, heads: seq<string>)
    requires Increasing(heads) && forall r :: r in heads <==> IsHead(files, r)
    ensures |heads| == 1 ==> OnlyHead(files, heads[0])
    ensures forall h | OnlyHead(files, h) :: |heads| == 1
  {
    assert |heads| > 1 ==> heads[0] in heads && heads[1] in heads && StrLess(heads[0], heads[1]);
    forall h | OnlyHead(files, h)
      ensures |heads| == 1
    {
      StrTotal(h, h);
      assert IsHead(files, h);
    }
  }

  // The head recorded for a tag is above everything that tag shipped.
  lemma RecordedHeadIsAboveAll(files: seq<File>, head: string, r: string)
    requires Acyclic(files) && OnlyHead(files, head) && IsRevision(files, r)
    ensures Below(files, r, head)
  {
    EveryRevisionHasAHead(files, r);
  }
}
