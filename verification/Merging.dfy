/** File-level merge of three snapshots: how Analyze classifies files, the tree Execute
    writes, and the textbook three-way merge the two are measured against. */
module Merging {
  import opened Tables

  datatype MergeType = FastForward | Clean | Conflicted
  datatype Entry = Entry(file: FileId, version: VersionId)
  datatype Conflict = Conflict(file: FileId, base: VersionId, source: VersionId, target: VersionId)
  datatype Analysis = Analysis(
    kind: MergeType,
    base: CommitId,
    sourceOnly: seq<Entry>,
    targetOnly: seq<Entry>,
    conflicts: seq<Conflict>,
    untouched: nat)

  /** A client's choice for a conflicted file. */
  type Resolution = Entry

  function VersionIn(m: Snapshot, f: FileId): VersionId {
    if f in m then m[f] else ABSENT
  }

  // ---- classification ----

  datatype Verdict = Unchanged | SourceOnly | TargetOnly | SourceDeleted | TargetDeleted | Clash

  function Classify(b: Snapshot, s: Snapshot, t: Snapshot, f: FileId): Verdict {
    var sourceChanged := VersionIn(s, f) != VersionIn(b, f);
    var targetChanged := VersionIn(t, f) != VersionIn(b, f);
    if !sourceChanged && !targetChanged then Unchanged
    else if sourceChanged && !targetChanged then
      if f in s then SourceOnly else SourceDeleted
    else if !sourceChanged && targetChanged then
      if f in t then TargetOnly else TargetDeleted
    else if VersionIn(s, f) == VersionIn(t, f) then Unchanged
    else Clash
  }

  function AllFiles(b: Snapshot, s: Snapshot, t: Snapshot): set<FileId> {
    b.Keys + s.Keys + t.Keys
  }

  function Having(fs: set<FileId>, b: Snapshot, s: Snapshot, t: Snapshot, v: Verdict): set<FileId> {
    set f | f in fs && Classify(b, s, t, f) == v
  }

  /** `es` lists each file of `fs` once, with its version in `m`, in some order. */
  ghost predicate Enumerates(es: seq<Entry>, fs: set<FileId>, m: Snapshot) {
    && (forall e :: e in es <==> e.file in fs && e.version == VersionIn(m, e.file))
    && (forall i, j :: 0 <= i < j < |es| ==> es[i].file != es[j].file)
  }

  function ConflictOf(b: Snapshot, s: Snapshot, t: Snapshot, f: FileId): Conflict {
    Conflict(f, VersionIn(b, f), VersionIn(s, f), VersionIn(t, f))
  }

  ghost predicate ListsConflicts(cs: seq<Conflict>, fs: set<FileId>, b: Snapshot, s: Snapshot, t: Snapshot) {
    && (forall c :: c in cs <==> c.file in fs && c == ConflictOf(b, s, t, c.file))
    && (forall i, j :: 0 <= i < j < |cs| ==> cs[i].file != cs[j].file)
  }

  /** `ana` is right about the files in `fs`. Nothing here depends on the order in which
      the files were visited. */
  ghost predicate Analyzes(fs: set<FileId>, b: Snapshot, s: Snapshot, t: Snapshot, ana: Analysis) {
    && Enumerates(ana.sourceOnly, Having(fs, b, s, t, SourceOnly), s)
    && Enumerates(ana.targetOnly, Having(fs, b, s, t, TargetOnly), t)
    && ListsConflicts(ana.conflicts, Having(fs, b, s, t, Clash), b, s, t)
    && ana.untouched == |Having(fs, b, s, t, Unchanged)|
    && ana.kind == if Having(fs, b, s, t, Clash) == {} then Clean else Conflicted
  }

  ghost predicate IsAnalysis(b: Snapshot, s: Snapshot, t: Snapshot, ana: Analysis) {
    Analyzes(AllFiles(b, s, t), b, s, t, ana)
  }

  // ---- the loops of Analyze ----

  /** Copies the keys of one snapshot into the set of all file ids. */
  method CollectKeys(all: set<FileId>, m: Snapshot) returns (all': set<FileId>)
    ensures all' == all + m.Keys
  {
    all' := all;
    var todo := m.Keys;
    while todo != {}
      invariant todo <= m.Keys
      invariant all' == all + (m.Keys - todo)
    {
      var f :| f in todo;
      all' := all' + {f};
      todo := todo - {f};
    }
  }

  lemma EnumeratesOneMore(es: seq<Entry>, fs: set<FileId>, m: Snapshot, f: FileId)
    requires Enumerates(es, fs, m) && f !in fs
    ensures Enumerates(es + [Entry(f, VersionIn(m, f))], fs + {f}, m)
  {
    var last := Entry(f, VersionIn(m, f));
    forall i | 0 <= i < |es| ensures es[i].file != f { assert es[i] in es; }
    forall e ensures e in es + [last] <==> e.file in fs + {f} && e.version == VersionIn(m, e.file) {
      assert e in es + [last] <==> e in es || e == last;
    }
  }

  lemma ListsOneMoreConflict(cs: seq<Conflict>, fs: set<FileId>, b: Snapshot, s: Snapshot, t: Snapshot, f: FileId)
    requires ListsConflicts(cs, fs, b, s, t) && f !in fs
    ensures ListsConflicts(cs + [ConflictOf(b, s, t, f)], fs + {f}, b, s, t)
  {
    var last := ConflictOf(b, s, t, f);
    forall i | 0 <= i < |cs| ensures cs[i].file != f { assert cs[i] in cs; }
    forall c ensures c in cs + [last] <==> c.file in fs + {f} && c == ConflictOf(b, s, t, c.file) {
      assert c in cs + [last] <==> c in cs || c == last;
    }
  }

  lemma HavingOneMore(fs: set<FileId>, b: Snapshot, s: Snapshot, t: Snapshot, f: FileId, v: Verdict)
    requires f !in fs
    ensures Having(fs + {f}, b, s, t, v) ==
      if Classify(b, s, t, f) == v then Having(fs, b, s, t, v) + {f} else Having(fs, b, s, t, v)
    ensures f !in Having(fs, b, s, t, v)
  {
  }

  lemma HavingEachOneMore(fs: set<FileId>, b: Snapshot, s: Snapshot, t: Snapshot, f: FileId)
    requires f !in fs
    ensures forall v ::
      Having(fs + {f}, b, s, t, v) ==
        if Classify(b, s, t, f) == v then Having(fs, b, s, t, v) + {f} else Having(fs, b, s, t, v)
  {
    forall v ensures Having(fs + {f}, b, s, t, v) ==
      if Classify(b, s, t, f) == v then Having(fs, b, s, t, v) + {f} else Having(fs, b, s, t, v)
    {
      HavingOneMore(fs, b, s, t, f, v);
    }
  }

  lemma CountsUnchanged(fs: set<FileId>, b: Snapshot, s: Snapshot, t: Snapshot, f: FileId, ana: Analysis)
    requires f !in fs && Analyzes(fs, b, s, t, ana) && Classify(b, s, t, f) == Unchanged
    ensures Analyzes(fs + {f}, b, s, t, ana.(untouched := ana.untouched + 1))
  {
    HavingEachOneMore(fs, b, s, t, f);
  }

  lemma LeavesOutDeleted(fs: set<FileId>, b: Snapshot, s: Snapshot, t: Snapshot, f: FileId, ana: Analysis)
    requires f !in fs && Analyzes(fs, b, s, t, ana)
    requires Classify(b, s, t, f) == SourceDeleted || Classify(b, s, t, f) == TargetDeleted
    ensures Analyzes(fs + {f}, b, s, t, ana)
  {
    HavingEachOneMore(fs, b, s, t, f);
  }

  lemma ListsSourceOnly(fs: set<FileId>, b: Snapshot, s: Snapshot, t: Snapshot, f: FileId, ana: Analysis)
    requires f !in fs && Analyzes(fs, b, s, t, ana) && Classify(b, s, t, f) == SourceOnly
    ensures Analyzes(fs + {f}, b, s, t, ana.(sourceOnly := ana.sourceOnly + [Entry(f, VersionIn(s, f))]))
  {
    HavingEachOneMore(fs, b, s, t, f);
    EnumeratesOneMore(ana.sourceOnly, Having(fs, b, s, t, SourceOnly), s, f);
  }

  lemma ListsTargetOnly(fs: set<FileId>, b: Snapshot, s: Snapshot, t: Snapshot, f: FileId, ana: Analysis)
    requires f !in fs && Analyzes(fs, b, s, t, ana) && Classify(b, s, t, f) == TargetOnly
    ensures Analyzes(fs + {f}, b, s, t, ana.(targetOnly := ana.targetOnly + [Entry(f, VersionIn(t, f))]))
  {
    HavingEachOneMore(fs, b, s, t, f);
    EnumeratesOneMore(ana.targetOnly, Having(fs, b, s, t, TargetOnly), t, f);
  }

  lemma ListsClash(fs: set<FileId>, b: Snapshot, s: Snapshot, t: Snapshot, f: FileId, ana: Analysis)
    requires f !in fs && Analyzes(fs, b, s, t, ana) && Classify(b, s, t, f) == Clash
    ensures Analyzes(fs + {f}, b, s, t,
      ana.(kind := Conflicted, conflicts := ana.conflicts + [ConflictOf(b, s, t, f)]))
  {
    HavingEachOneMore(fs, b, s, t, f);
    ListsOneMoreConflict(ana.conflicts, Having(fs, b, s, t, Clash), b, s, t, f);
  }

  /** The switch of Analyze on one file. */
  method AnalyzeFile(ghost fs: set<FileId>, b: Snapshot, s: Snapshot, t: Snapshot, f: FileId, ana: Analysis)
    returns (ana': Analysis)
    requires f !in fs && Analyzes(fs, b, s, t, ana)
    ensures Analyzes(fs + {f}, b, s, t, ana') && ana'.base == ana.base
  {
    var baseVersion := if f in b then b[f] else ABSENT;
    var sourceVersion := if f in s then s[f] else ABSENT;
    var targetVersion := if f in t then t[f] else ABSENT;
    var sourceChanged := sourceVersion != baseVersion;
    var targetChanged := targetVersion != baseVersion;
    ana' := ana;
    if !sourceChanged && !targetChanged {
      CountsUnchanged(fs, b, s, t, f, ana);
      ana' := ana.(untouched := ana.untouched + 1);
    } else if sourceChanged && !targetChanged {
      if f in s {
        ListsSourceOnly(fs, b, s, t, f, ana);
        ana' := ana.(sourceOnly := ana.sourceOnly + [Entry(f, sourceVersion)]);
      } else {
        LeavesOutDeleted(fs, b, s, t, f, ana);
      }
    } else if !sourceChanged && targetChanged {
      if f in t {
        ListsTargetOnly(fs, b, s, t, f, ana);
        ana' := ana.(targetOnly := ana.targetOnly + [Entry(f, targetVersion)]);
      } else {
        LeavesOutDeleted(fs, b, s, t, f, ana);
      }
    } else if sourceVersion == targetVersion {
      CountsUnchanged(fs, b, s, t, f, ana);
      ana' := ana.(untouched := ana.untouched + 1);
    } else {
      ListsClash(fs, b, s, t, f, ana);
      ana' := ana.(kind := Conflicted,
        conflicts := ana.conflicts + [Conflict(f, baseVersion, sourceVersion, targetVersion)]);
    }
  }

  lemma NothingAnalyzed(b: Snapshot, s: Snapshot, t: Snapshot, base: CommitId)
    ensures Analyzes({}, b, s, t, Analysis(Clean, base, [], [], [], 0))
  {
    assert forall v :: Having({}, b, s, t, v) == {};
  }

  method CollectFiles(b: Snapshot, s: Snapshot, t: Snapshot) returns (all: set<FileId>)
    ensures all == AllFiles(b, s, t)
  {
    all := CollectKeys({}, b);
    all := CollectKeys(all, s);
    all := CollectKeys(all, t);
  }

  /** Visits the files in whatever order the map yields them. */
  method AnalyzeSnapshots(base: CommitId, b: Snapshot, s: Snapshot, t: Snapshot) returns (ana: Analysis)
    ensures IsAnalysis(b, s, t, ana) && ana.base == base
    ensures Real(b) && Real(s) && Real(t) ==> Describes(b, s, t, ana)
  {
    var all := CollectFiles(b, s, t);
    ana := Analysis(Clean, base, [], [], [], 0);
    NothingAnalyzed(b, s, t, base);
    ghost var done := {};
    var todo := all;
    while todo != {}
      invariant todo == all - done && done <= all
      invariant Analyzes(done, b, s, t, ana) && ana.base == base
      decreases todo
    {
      var f :| f in todo;
      ana := AnalyzeFile(done, b, s, t, f, ana);
      todo := todo - {f};
      done := done + {f};
    }
    assert done == all;
    if Real(b) && Real(s) && Real(t) { AnalysisDescribes(b, s, t, ana); }
  }

  lemma EnumerationSize(es: seq<Entry>, fs: set<FileId>, m: Snapshot)
    requires Enumerates(es, fs, m)
    ensures |es| == |fs|
    decreases |es|
  {
    assert forall f :: f in fs ==> Entry(f, VersionIn(m, f)) in es;
    if es == [] {
      assert fs == {};
    } else {
      var last := es[|es| - 1];
      var front := es[..|es| - 1];
      assert es == front + [last];
      assert last in es;
      forall e ensures e in front <==> e.file in fs - {last.file} && e.version == VersionIn(m, e.file) {
        if e in front { assert e in es; }
        if e.file in fs - {last.file} && e.version == VersionIn(m, e.file) { assert e in es; }
      }
      EnumerationSize(front, fs - {last.file}, m);
    }
  }

  lemma ConflictListSize(cs: seq<Conflict>, fs: set<FileId>, b: Snapshot, s: Snapshot, t: Snapshot)
    requires ListsConflicts(cs, fs, b, s, t)
    ensures |cs| == |fs|
    decreases |cs|
  {
    assert forall f :: f in fs ==> ConflictOf(b, s, t, f) in cs;
    if cs == [] {
      assert fs == {};
    } else {
      var last := cs[|cs| - 1];
      var front := cs[..|cs| - 1];
      assert cs == front + [last];
      assert last in cs;
      forall c ensures c in front <==> c.file in fs - {last.file} && c == ConflictOf(b, s, t, c.file) {
        if c in front { assert c in cs; }
        if c.file in fs - {last.file} && c == ConflictOf(b, s, t, c.file) { assert c in cs; }
      }
      ConflictListSize(front, fs - {last.file}, b, s, t);
    }
  }

  /** Two visiting orders give the same type, the same count and the same entries, and the
      type is conflict exactly when a conflict is listed. */
  lemma AnalysisIgnoresOrder(b: Snapshot, s: Snapshot, t: Snapshot, x: Analysis, y: Analysis)
    requires IsAnalysis(b, s, t, x) && IsAnalysis(b, s, t, y)
    ensures x.kind == y.kind && x.untouched == y.untouched
    ensures forall e :: e in x.sourceOnly <==> e in y.sourceOnly
    ensures forall e :: e in x.targetOnly <==> e in y.targetOnly
    ensures forall c :: c in x.conflicts <==> c in y.conflicts
    ensures |x.sourceOnly| == |y.sourceOnly| && |x.targetOnly| == |y.targetOnly|
    ensures |x.conflicts| == |y.conflicts|
    ensures x.kind == Conflicted <==> x.conflicts != []
  {
    var all := AllFiles(b, s, t);
    EnumerationSize(x.sourceOnly, Having(all, b, s, t, SourceOnly), s);
    EnumerationSize(y.sourceOnly, Having(all, b, s, t, SourceOnly), s);
    EnumerationSize(x.targetOnly, Having(all, b, s, t, TargetOnly), t);
    EnumerationSize(y.targetOnly, Having(all, b, s, t, TargetOnly), t);
    ConflictListSize(x.conflicts, Having(all, b, s, t, Clash), b, s, t);
    ConflictListSize(y.conflicts, Having(all, b, s, t, Clash), b, s, t);
  }

  /** Every file of the three snapshots is counted once: unchanged, taken from one side,
      in conflict, or deleted on one side, which the analysis does not list. */
  lemma AnalysisPartitionsFiles(b: Snapshot, s: Snapshot, t: Snapshot, ana: Analysis)
    requires IsAnalysis(b, s, t, ana)
    ensures |AllFiles(b, s, t)| ==
      ana.untouched + |ana.sourceOnly| + |ana.targetOnly| + |ana.conflicts|
      + |Having(AllFiles(b, s, t), b, s, t, SourceDeleted)|
      + |Having(AllFiles(b, s, t), b, s, t, TargetDeleted)|
  {
    var all := AllFiles(b, s, t);
    EnumerationSize(ana.sourceOnly, Having(all, b, s, t, SourceOnly), s);
    EnumerationSize(ana.targetOnly, Having(all, b, s, t, TargetOnly), t);
    ConflictListSize(ana.conflicts, Having(all, b, s, t, Clash), b, s, t);
    VerdictsPartition(all, b, s, t);
  }

  lemma VerdictsPartition(all: set<FileId>, b: Snapshot, s: Snapshot, t: Snapshot)
    ensures |all| ==
      |Having(all, b, s, t, Unchanged)| + |Having(all, b, s, t, SourceOnly)|
      + |Having(all, b, s, t, TargetOnly)| + |Having(all, b, s, t, Clash)|
      + |Having(all, b, s, t, SourceDeleted)| + |Having(all, b, s, t, TargetDeleted)|
  {
    SizeOfPartition(all, Having(all, b, s, t, Unchanged), Having(all, b, s, t, SourceOnly),
      Having(all, b, s, t, TargetOnly), Having(all, b, s, t, Clash),
      Having(all, b, s, t, SourceDeleted), Having(all, b, s, t, TargetDeleted));
  }

  lemma SizeOfPartition<T>(all: set<T>, u: set<T>, v: set<T>, w: set<T>, x: set<T>, y: set<T>, z: set<T>)
    requires forall e :: e in all <==> e in u || e in v || e in w || e in x || e in y || e in z
    requires u !! v && u !! w && u !! x && u !! y && u !! z && v !! w && v !! x && v !! y && v !! z
    requires w !! x && w !! y && w !! z && x !! y && x !! z && y !! z
    ensures |all| == |u| + |v| + |w| + |x| + |y| + |z|
  {
    assert all == u + v + w + x + y + z;
  }

  // ---- what an analysis says about the three maps ----

  /** The two maps agree on the file: neither has it, or both have the same version. */
  predicate SameAt(m: Snapshot, n: Snapshot, f: FileId) {
    (f in m <==> f in n) && (f in m ==> m[f] == n[f])
  }

  /** Both sides changed the file, and differently. */
  predicate ClashAt(b: Snapshot, s: Snapshot, t: Snapshot, f: FileId) {
    !SameAt(s, b, f) && !SameAt(t, b, f) && !SameAt(s, t, f)
  }

  /** The two lists and the count, file by file. */
  ghost predicate SidesListed(b: Snapshot, s: Snapshot, t: Snapshot, ana: Analysis) {
    && (forall e :: e in ana.sourceOnly <==>
          e.file in s && s[e.file] == e.version && !SameAt(s, b, e.file) && SameAt(t, b, e.file))
    && (forall e :: e in ana.targetOnly <==>
          e.file in t && t[e.file] == e.version && !SameAt(t, b, e.file) && SameAt(s, b, e.file))
    && ana.untouched == |set f | f in b.Keys + s.Keys + t.Keys && SameAt(s, t, f)|
  }

  /** Each clash once, with the version that each of the three maps has for it. */
  ghost predicate ClashesListed(b: Snapshot, s: Snapshot, t: Snapshot, ana: Analysis) {
    && (forall c :: c in ana.conflicts ==>
          && ClashAt(b, s, t, c.file)
          && c.base == (if c.file in b then b[c.file] else ABSENT)
          && c.source == (if c.file in s then s[c.file] else ABSENT)
          && c.target == (if c.file in t then t[c.file] else ABSENT))
    && (forall f :: ClashAt(b, s, t, f) ==> exists c :: c in ana.conflicts && c.file == f)
    && (forall i, j :: 0 <= i < j < |ana.conflicts| ==> ana.conflicts[i].file != ana.conflicts[j].file)
    && ana.kind == if ana.conflicts == [] then Clean else Conflicted
  }

  ghost predicate Describes(b: Snapshot, s: Snapshot, t: Snapshot, ana: Analysis) {
    SidesListed(b, s, t, ana) && ClashesListed(b, s, t, ana)
  }

  lemma VerdictMeans(b: Snapshot, s: Snapshot, t: Snapshot, f: FileId)
    requires Real(b) && Real(s) && Real(t)
    ensures Classify(b, s, t, f) == SourceOnly <==> f in s && !SameAt(s, b, f) && SameAt(t, b, f)
    ensures Classify(b, s, t, f) == TargetOnly <==> f in t && !SameAt(t, b, f) && SameAt(s, b, f)
    ensures Classify(b, s, t, f) == Unchanged <==> SameAt(s, t, f)
    ensures Classify(b, s, t, f) == Clash <==> ClashAt(b, s, t, f)
  {
  }

  lemma SidesAreListed(b: Snapshot, s: Snapshot, t: Snapshot, ana: Analysis)
    requires Real(b) && Real(s) && Real(t) && IsAnalysis(b, s, t, ana)
    ensures SidesListed(b, s, t, ana)
  {
    var all := AllFiles(b, s, t);
    forall f
      ensures f in Having(all, b, s, t, SourceOnly) <==> f in s && !SameAt(s, b, f) && SameAt(t, b, f)
      ensures f in Having(all, b, s, t, TargetOnly) <==> f in t && !SameAt(t, b, f) && SameAt(s, b, f)
      ensures f in Having(all, b, s, t, Unchanged) <==> f in all && SameAt(s, t, f)
    {
      VerdictMeans(b, s, t, f);
    }
    assert Having(all, b, s, t, Unchanged) == set f | f in b.Keys + s.Keys + t.Keys && SameAt(s, t, f);
  }

  lemma ClashesAreListed(b: Snapshot, s: Snapshot, t: Snapshot, ana: Analysis)
    requires Real(b) && Real(s) && Real(t) && IsAnalysis(b, s, t, ana)
    ensures ClashesListed(b, s, t, ana)
  {
    var all := AllFiles(b, s, t);
    forall f ensures f in Having(all, b, s, t, Clash) <==> ClashAt(b, s, t, f) {
      VerdictMeans(b, s, t, f);
    }
    forall f | ClashAt(b, s, t, f) ensures exists c :: c in ana.conflicts && c.file == f {
      assert ConflictOf(b, s, t, f) in ana.conflicts;
    }
    ConflictListSize(ana.conflicts, Having(all, b, s, t, Clash), b, s, t);
  }

  /** What Analyze reports, said of the three snapshots alone. */
  lemma AnalysisDescribes(b: Snapshot, s: Snapshot, t: Snapshot, ana: Analysis)
    requires Real(b) && Real(s) && Real(t) && IsAnalysis(b, s, t, ana)
    ensures Describes(b, s, t, ana)
  {
    SidesAreListed(b, s, t, ana);
    ClashesAreListed(b, s, t, ana);
  }

  // ---- resolutions ----

  /** Writes the entries into the map one by one; a later entry for a file wins. */
  function Overlay(m: Snapshot, es: seq<Entry>): Snapshot {
    if es == [] then m
    else Overlay(m, es[..|es| - 1])[es[|es| - 1].file := es[|es| - 1].version]
  }

  function Chosen(res: seq<Resolution>): Snapshot {
    Overlay(map[], res)
  }

  predicate Covers(res: seq<Resolution>, c: Conflict) {
    && c.file in Chosen(res)
    && Chosen(res)[c.file] in {c.source, c.target, c.base}
  }

  /** What Execute checks before it merges. */
  predicate Accepted(ana: Analysis, res: seq<Resolution>) {
    ana.kind == Conflicted ==>
      && |res| == |ana.conflicts|
      && forall c :: c in ana.conflicts ==> Covers(res, c)
  }

  function FileSet(es: seq<Entry>): set<FileId> {
    if es == [] then {} else FileSet(es[..|es| - 1]) + {es[|es| - 1].file}
  }

  lemma {:induction false} OverlayKeys(m: Snapshot, es: seq<Entry>)
    ensures Overlay(m, es).Keys == m.Keys + FileSet(es)
    decreases |es|
  {
    if es != [] { OverlayKeys(m, es[..|es| - 1]); }
  }

  lemma {:induction false} FileSetSize(es: seq<Entry>)
    ensures |FileSet(es)| <= |es|
    ensures forall e :: e in es ==> e.file in FileSet(es)
    decreases |es|
  {
    if es != [] {
      var front, last := es[..|es| - 1], es[|es| - 1];
      assert es == front + [last];
      FileSetSize(front);
      if last.file !in FileSet(front) {
        assert |FileSet(front) + {last.file}| == |FileSet(front)| + 1;
      } else {
        assert FileSet(front) + {last.file} == FileSet(front);
      }
    }
  }

  lemma {:induction false} FullFileSetMeansDistinct(es: seq<Entry>)
    requires |FileSet(es)| == |es|
    ensures forall i, j :: 0 <= i < j < |es| ==> es[i].file != es[j].file
    decreases |es|
  {
    if es != [] {
      var front, last := es[..|es| - 1], es[|es| - 1];
      FileSetSize(front);
      assert last.file in FileSet(front) ==> FileSet(es) == FileSet(front);
      FullFileSetMeansDistinct(front);
      forall i | 0 <= i < |front| ensures es[i].file != last.file {
        assert front[i] in front;
      }
    }
  }

  /** Pigeonhole: as many resolutions as conflicts, each conflict covered, so the
      resolutions name every conflicted file exactly once and no other file. */
  lemma ResolutionsPermuteConflicts(b: Snapshot, s: Snapshot, t: Snapshot, ana: Analysis, res: seq<Resolution>)
    requires IsAnalysis(b, s, t, ana) && ana.kind == Conflicted && Accepted(ana, res)
    ensures Chosen(res).Keys == Having(AllFiles(b, s, t), b, s, t, Clash)
    ensures forall i, j :: 0 <= i < j < |res| ==> res[i].file != res[j].file
    ensures forall f :: f in Chosen(res) ==>
      Chosen(res)[f] in {VersionIn(s, f), VersionIn(t, f), VersionIn(b, f)}
  {
    var clashes := Having(AllFiles(b, s, t), b, s, t, Clash);
    var named := FileSet(res);
    OverlayKeys(map[], res);
    FileSetSize(res);
    ConflictListSize(ana.conflicts, clashes, b, s, t);
    forall f | f in clashes
      ensures f in named
      ensures Chosen(res)[f] in {VersionIn(s, f), VersionIn(t, f), VersionIn(b, f)}
    {
      assert ConflictOf(b, s, t, f) in ana.conflicts;
    }
    assert clashes <= named;
    SubsetOfEqualSize(clashes, named);
    FullFileSetMeansDistinct(res);
  }

  lemma {:induction false} DistinctFileSet(es: seq<Entry>)
    requires forall i, j :: 0 <= i < j < |es| ==> es[i].file != es[j].file
    ensures |FileSet(es)| == |es|
    ensures forall f :: f in FileSet(es) <==> exists e :: e in es && e.file == f
    decreases |es|
  {
    if es != [] {
      var front, last := es[..|es| - 1], es[|es| - 1];
      assert es == front + [last];
      DistinctFileSet(front);
      assert last.file !in FileSet(front);
      forall f ensures f in FileSet(es) <==> exists e :: e in es && e.file == f {
        if e :| e in es && e.file == f { assert e in front || e == last; }
        if f in FileSet(front) {
          var e :| e in front && e.file == f;
          assert e in es;
        }
        assert last in es;
      }
    }
  }

  /** One resolution for each file that both sides changed differently, for one of the three
      versions that the snapshots have for it, and none for any other file. */
  ghost predicate Answers(b: Snapshot, s: Snapshot, t: Snapshot, res: seq<Resolution>) {
    && (forall r :: r in res ==>
          ClashAt(b, s, t, r.file) && r.version in {VersionIn(s, r.file), VersionIn(t, r.file), VersionIn(b, r.file)})
    && (forall i, j :: 0 <= i < j < |res| ==> res[i].file != res[j].file)
    && (forall f :: ClashAt(b, s, t, f) ==> exists r :: r in res && r.file == f)
  }

  lemma ClashesAre(b: Snapshot, s: Snapshot, t: Snapshot)
    requires Real(b) && Real(s) && Real(t)
    ensures forall f :: f in Having(AllFiles(b, s, t), b, s, t, Clash) <==> ClashAt(b, s, t, f)
  {
    forall f ensures f in Having(AllFiles(b, s, t), b, s, t, Clash) <==> ClashAt(b, s, t, f) {
      VerdictMeans(b, s, t, f);
    }
  }

  lemma AcceptedAnswers(b: Snapshot, s: Snapshot, t: Snapshot, ana: Analysis, res: seq<Resolution>)
    requires Real(b) && Real(s) && Real(t) && IsAnalysis(b, s, t, ana) && ana.kind == Conflicted
    requires Accepted(ana, res)
    ensures Answers(b, s, t, res)
  {
    ResolutionsPermuteConflicts(b, s, t, ana, res);
    DistinctOverlay(map[], res);
    DistinctFileSet(res);
    OverlayKeys(map[], res);
    ClashesAre(b, s, t);
    forall r | r in res
      ensures ClashAt(b, s, t, r.file)
      ensures r.version in {VersionIn(s, r.file), VersionIn(t, r.file), VersionIn(b, r.file)}
    {
      assert Chosen(res)[r.file] == r.version;
    }
  }

  lemma AnswersAccepted(b: Snapshot, s: Snapshot, t: Snapshot, ana: Analysis, res: seq<Resolution>)
    requires Real(b) && Real(s) && Real(t) && IsAnalysis(b, s, t, ana) && Answers(b, s, t, res)
    ensures Accepted(ana, res)
  {
    var clashes := Having(AllFiles(b, s, t), b, s, t, Clash);
    ClashesAre(b, s, t);
    DistinctOverlay(map[], res);
    DistinctFileSet(res);
    ConflictListSize(ana.conflicts, clashes, b, s, t);
    assert FileSet(res) == clashes;
    forall c | c in ana.conflicts ensures Covers(res, c) {
      var r :| r in res && r.file == c.file;
      assert Chosen(res)[c.file] == r.version;
    }
  }

  /** Execute accepts exactly the lists that answer the conflicts of the three snapshots. */
  lemma AcceptedIffAnswers(b: Snapshot, s: Snapshot, t: Snapshot, ana: Analysis, res: seq<Resolution>)
    requires Real(b) && Real(s) && Real(t) && IsAnalysis(b, s, t, ana) && ana.kind == Conflicted
    ensures Accepted(ana, res) <==> Answers(b, s, t, res)
  {
    if Accepted(ana, res) { AcceptedAnswers(b, s, t, ana, res); }
    if Answers(b, s, t, res) { AnswersAccepted(b, s, t, ana, res); }
  }

  /** The resolutions decide each conflict, and no other file, for a version it has. */
  ghost predicate Settles(b: Snapshot, s: Snapshot, t: Snapshot, res: seq<Resolution>) {
    var clashes := Having(AllFiles(b, s, t), b, s, t, Clash);
    clashes != {} ==>
      && |res| == |clashes| && Chosen(res).Keys == clashes
      && forall f :: f in clashes ==>
           Chosen(res)[f] in {VersionIn(s, f), VersionIn(t, f), VersionIn(b, f)} - {ABSENT}
  }

  lemma SubsetOfEqualSize<T>(a: set<T>, b: set<T>)
    requires a <= b && |b| <= |a|
    ensures a == b
  {
    assert b == a + (b - a);
    assert |b| == |a| + |b - a|;
  }

  // ---- the merged tree ----

  /** What Execute writes: the target's snapshot, source-only entries over it, and the
      resolutions over both when there are conflicts. */
  function MergedTree(t: Snapshot, ana: Analysis, res: seq<Resolution>): Snapshot {
    var taken := Overlay(t, ana.sourceOnly);
    if ana.kind == Conflicted then Overlay(taken, res) else taken
  }

  /** The version of `f` after a textbook three-way merge: an unchanged side yields to the
      other, equal changes agree, and different changes take the chosen version. A missing
      file is a deletion like any other change. */
  function Decide(b: Snapshot, s: Snapshot, t: Snapshot, chosen: Snapshot, f: FileId): VersionId {
    if VersionIn(s, f) == VersionIn(b, f) then VersionIn(t, f)
    else if VersionIn(t, f) == VersionIn(b, f) then VersionIn(s, f)
    else if VersionIn(s, f) == VersionIn(t, f) then VersionIn(s, f)
    else VersionIn(chosen, f)
  }

  function ThreeWay(b: Snapshot, s: Snapshot, t: Snapshot, chosen: Snapshot): Snapshot {
    map f | f in AllFiles(b, s, t) && Decide(b, s, t, chosen, f) != ABSENT :: Decide(b, s, t, chosen, f)
  }

  /** Snapshot rows hold UUIDs, so no row holds the empty version. */
  predicate Real(m: Snapshot) {
    forall f :: f in m ==> m[f] != ABSENT
  }

  lemma OverlayPointwise(m: Snapshot, es: seq<Entry>, fs: set<FileId>, n: Snapshot)
    requires Enumerates(es, fs, n)
    ensures forall f :: f in Overlay(m, es) <==> f in m || f in fs
    ensures forall f :: f in fs ==> Overlay(m, es)[f] == VersionIn(n, f)
    ensures forall f :: f in m && f !in fs ==> Overlay(m, es)[f] == m[f]
  {
    OverlayCases(m, es);
    DistinctOverlay(m, es);
    forall f | f in fs ensures f in Overlay(m, es) && Overlay(m, es)[f] == VersionIn(n, f) {
      assert Entry(f, VersionIn(n, f)) in es;
    }
  }

  lemma {:induction false} OverlayCases(m: Snapshot, es: seq<Entry>)
    ensures forall f :: f in m ==> f in Overlay(m, es)
    ensures forall f :: f in Overlay(m, es) ==>
      (f in m && Overlay(m, es)[f] == m[f]) || Entry(f, Overlay(m, es)[f]) in es
    decreases |es|
  {
    if es != [] {
      var front, last := es[..|es| - 1], es[|es| - 1];
      assert es == front + [last];
      OverlayCases(m, front);
    }
  }

  lemma {:induction false} DistinctOverlay(m: Snapshot, es: seq<Entry>)
    requires forall i, j :: 0 <= i < j < |es| ==> es[i].file != es[j].file
    ensures forall e :: e in es ==> e.file in Overlay(m, es) && Overlay(m, es)[e.file] == e.version
    decreases |es|
  {
    if es != [] {
      var front, last := es[..|es| - 1], es[|es| - 1];
      assert es == front + [last];
      DistinctOverlay(m, front);
    }
  }

  /** Resolutions as an overlay: their files take the chosen version, others keep theirs. */
  lemma {:induction false} OverlayChosen(m: Snapshot, res: seq<Resolution>)
    ensures Overlay(m, res) == m + Chosen(res)
    decreases |res|
  {
    if res != [] {
      OverlayChosen(m, res[..|res| - 1]);
    }
  }

  /** The merged tree at one file. */
  predicate AgreesAt(b: Snapshot, s: Snapshot, t: Snapshot, chosen: Snapshot, m: Snapshot, f: FileId) {
    var verdict := Classify(b, s, t, f);
    && (f in m <==> f in t || verdict == SourceOnly || verdict == Clash)
    && (f in m ==> m[f] == (if verdict == SourceOnly then VersionIn(s, f)
                            else if verdict == Clash then VersionIn(chosen, f)
                            else VersionIn(t, f)))
  }

  lemma MergedTreeAt(b: Snapshot, s: Snapshot, t: Snapshot, ana: Analysis, res: seq<Resolution>)
    requires IsAnalysis(b, s, t, ana) && Accepted(ana, res)
    ensures forall f :: AgreesAt(b, s, t, Chosen(res), MergedTree(t, ana, res), f)
    ensures ana.kind != Conflicted ==> forall f :: Classify(b, s, t, f) != Clash
  {
    var all := AllFiles(b, s, t);
    OverlayPointwise(t, ana.sourceOnly, Having(all, b, s, t, SourceOnly), s);
    OverlayChosen(Overlay(t, ana.sourceOnly), res);
    forall f ensures AgreesAt(b, s, t, Chosen(res), MergedTree(t, ana, res), f) {
      assert f in Having(all, b, s, t, SourceOnly) <==> Classify(b, s, t, f) == SourceOnly;
      assert f in Having(all, b, s, t, Clash) <==> Classify(b, s, t, f) == Clash;
      if ana.kind == Conflicted {
        ResolutionsPermuteConflicts(b, s, t, ana, res);
      }
    }
    if ana.kind != Conflicted {
      forall f ensures Classify(b, s, t, f) != Clash {
        assert f !in Having(all, b, s, t, Clash);
      }
    }
  }

  lemma AgreementIsThreeWayAt(b: Snapshot, s: Snapshot, t: Snapshot, chosen: Snapshot, m: Snapshot, f: FileId)
    requires Real(b) && Real(s) && Real(t)
    requires AgreesAt(b, s, t, chosen, m, f)
    ensures SameAt(m, ThreeWay(b, s, t, chosen), f) <==>
      && Classify(b, s, t, f) != SourceDeleted
      && (Classify(b, s, t, f) == Clash ==> VersionIn(chosen, f) != ABSENT)
  {
  }

  lemma SameEverywhere(m: Snapshot, n: Snapshot)
    ensures m == n <==> forall f :: SameAt(m, n, f)
  {
    if forall f :: SameAt(m, n, f) {
      forall f ensures (f in m <==> f in n) && (f in m ==> m[f] == n[f]) {
        assert SameAt(m, n, f);
      }
    }
  }

  lemma AgreementIsThreeWay(b: Snapshot, s: Snapshot, t: Snapshot, chosen: Snapshot, m: Snapshot)
    requires Real(b) && Real(s) && Real(t)
    requires forall f :: AgreesAt(b, s, t, chosen, m, f)
    ensures m == ThreeWay(b, s, t, chosen) <==> forall f ::
      && Classify(b, s, t, f) != SourceDeleted
      && (Classify(b, s, t, f) == Clash ==> VersionIn(chosen, f) != ABSENT)
  {
    var exact := ThreeWay(b, s, t, chosen);
    SameEverywhere(m, exact);
    forall f
      ensures SameAt(m, exact, f) <==>
        && Classify(b, s, t, f) != SourceDeleted
        && (Classify(b, s, t, f) == Clash ==> VersionIn(chosen, f) != ABSENT)
    {
      AgreementIsThreeWayAt(b, s, t, chosen, m, f);
    }
  }

  /** The code never removes a file from the target's tree, so it is the three-way merge
      exactly when no file was deleted on the source side alone and no conflict was
      resolved to the absent version of a file the base lacks. */
  lemma MergedTreeIsThreeWayIff(b: Snapshot, s: Snapshot, t: Snapshot, ana: Analysis, res: seq<Resolution>)
    requires Real(b) && Real(s) && Real(t)
    requires IsAnalysis(b, s, t, ana) && Accepted(ana, res)
    ensures MergedTree(t, ana, res) == ThreeWay(b, s, t, Chosen(res)) <==> forall f ::
      && Classify(b, s, t, f) != SourceDeleted
      && (Classify(b, s, t, f) == Clash ==> VersionIn(Chosen(res), f) != ABSENT)
  {
    MergedTreeAt(b, s, t, ana, res);
    AgreementIsThreeWay(b, s, t, Chosen(res), MergedTree(t, ana, res));
  }

  /** A file the target kept and the source deleted stays, against the comment that says
      the deletion propagates. */
  lemma DeletionDoesNotPropagate() returns (b: Snapshot, s: Snapshot, t: Snapshot, ana: Analysis)
    ensures Real(b) && Real(s) && Real(t) && IsAnalysis(b, s, t, ana) && ana.kind == Clean
    ensures MergedTree(t, ana, []) == map[7 := 1]
    ensures ThreeWay(b, s, t, map[]) == map[]
  {
    b, s, t := map[7 := 1], map[], map[7 := 1];
    ana := Analysis(Clean, 0, [], [], [], 0);
    assert AllFiles(b, s, t) == {7};
    assert Classify(b, s, t, 7) == SourceDeleted;
    assert forall v :: v != SourceDeleted ==> Having({7}, b, s, t, v) == {};
  }

  // ---- taking one side, and what the reference merge means ----

  /** A client that answers every conflict with the source's version is accepted and gets the
      source's version wherever both sides changed; the same of the target's. */
  lemma TakingOneSide(b: Snapshot, s: Snapshot, t: Snapshot, ana: Analysis, res: seq<Resolution>, source: bool)
    requires Real(b) && Real(s) && Real(t) && IsAnalysis(b, s, t, ana) && ana.kind == Conflicted
    requires |res| == |ana.conflicts|
    requires forall i :: 0 <= i < |res| ==>
      res[i] == Entry(ana.conflicts[i].file, if source then ana.conflicts[i].source else ana.conflicts[i].target)
    ensures Accepted(ana, res)
    ensures forall f :: ClashAt(b, s, t, f) ==>
      var side, m := if source then s else t, MergedTree(t, ana, res);
      f in m && m[f] == if f in side then side[f] else ABSENT
  {
    AnalysisDescribes(b, s, t, ana);
    DistinctOverlay(map[], res);
    forall c | c in ana.conflicts
      ensures c.file in Chosen(res) && Chosen(res)[c.file] == if source then c.source else c.target
    {
      var i :| 0 <= i < |res| && ana.conflicts[i] == c;
      assert res[i] in res;
    }
    MergedTreeAt(b, s, t, ana, res);
    forall f | ClashAt(b, s, t, f)
      ensures var side, m := if source then s else t, MergedTree(t, ana, res);
        f in m && m[f] == if f in side then side[f] else ABSENT
    {
      VerdictMeans(b, s, t, f);
      assert AgreesAt(b, s, t, Chosen(res), MergedTree(t, ana, res), f);
    }
  }

  /** The merge of three maps, file by file: a side that did not change the file yields to
      the other, agreeing sides stand, and a clash takes the answer given for it. */
  ghost predicate MergesFiles(b: Snapshot, s: Snapshot, t: Snapshot, res: seq<Resolution>, m: Snapshot) {
    && (forall f :: SameAt(t, b, f) ==> SameAt(m, s, f))
    && (forall f :: SameAt(s, b, f) ==> SameAt(m, t, f))
    && (forall f :: SameAt(s, t, f) ==> SameAt(m, s, f))
    && (forall f :: ClashAt(b, s, t, f) ==> f in m && Entry(f, m[f]) in res)
  }

  /** The answers a merge was settled by, in terms of the list. */
  ghost predicate Settled(b: Snapshot, s: Snapshot, t: Snapshot, res: seq<Resolution>) {
    (exists f :: ClashAt(b, s, t, f)) ==> Answers(b, s, t, res) && forall r :: r in res ==> r.version != ABSENT
  }

  lemma ChosenMeans(res: seq<Resolution>)
    requires |res| == |Chosen(res).Keys|
    ensures forall i, j :: 0 <= i < j < |res| ==> res[i].file != res[j].file
    ensures forall r :: r in res ==> r.file in Chosen(res) && Chosen(res)[r.file] == r.version
    ensures forall f :: f in Chosen(res) ==> Entry(f, Chosen(res)[f]) in res
  {
    OverlayKeys(map[], res);
    assert Chosen(res).Keys == FileSet(res);
    FullFileSetMeansDistinct(res);
    DistinctOverlay(map[], res);
    OverlayCases(map[], res);
  }

  lemma SettlesMeans(b: Snapshot, s: Snapshot, t: Snapshot, res: seq<Resolution>)
    requires Real(b) && Real(s) && Real(t) && Settles(b, s, t, res)
    ensures Settled(b, s, t, res)
    ensures forall f :: ClashAt(b, s, t, f) ==>
      f in Chosen(res) && Chosen(res)[f] != ABSENT && Entry(f, Chosen(res)[f]) in res
  {
    ClashesAre(b, s, t);
    if Having(AllFiles(b, s, t), b, s, t, Clash) != {} { ChosenMeans(res); }
  }

  lemma ThreeWayAt(b: Snapshot, s: Snapshot, t: Snapshot, chosen: Snapshot, f: FileId)
    requires Real(b) && Real(s) && Real(t)
    ensures var m := ThreeWay(b, s, t, chosen);
      && (SameAt(t, b, f) ==> SameAt(m, s, f))
      && (SameAt(s, b, f) ==> SameAt(m, t, f))
      && (SameAt(s, t, f) ==> SameAt(m, s, f))
      && (ClashAt(b, s, t, f) && f in chosen && chosen[f] != ABSENT ==> f in m && m[f] == chosen[f])
  {
  }

  lemma ThreeWayMergesFiles(b: Snapshot, s: Snapshot, t: Snapshot, res: seq<Resolution>)
    requires Real(b) && Real(s) && Real(t) && Settles(b, s, t, res)
    ensures MergesFiles(b, s, t, res, ThreeWay(b, s, t, Chosen(res))) && Settled(b, s, t, res)
  {
    SettlesMeans(b, s, t, res);
    var m := ThreeWay(b, s, t, Chosen(res));
    forall f
      ensures SameAt(t, b, f) ==> SameAt(m, s, f)
      ensures SameAt(s, b, f) ==> SameAt(m, t, f)
      ensures SameAt(s, t, f) ==> SameAt(m, s, f)
      ensures ClashAt(b, s, t, f) ==> f in m && Entry(f, m[f]) in res
    {
      ThreeWayAt(b, s, t, Chosen(res), f);
    }
  }

  lemma NothingDeleted(b: Snapshot, s: Snapshot, t: Snapshot)
    requires Real(b) && Real(s) && Real(t) && b.Keys <= s.Keys && b.Keys <= t.Keys
    ensures forall f :: Classify(b, s, t, f) != SourceDeleted && Classify(b, s, t, f) != TargetDeleted
  {
  }

  // ---- laws of the merge ----

  /** Merging a source that is its own base changes nothing and lists nothing to take. */
  lemma MergingTheBaseIsNoOp(s: Snapshot, t: Snapshot, ana: Analysis, res: seq<Resolution>)
    requires IsAnalysis(s, s, t, ana)
    ensures ana.kind == Clean && ana.sourceOnly == [] && ana.conflicts == []
    ensures MergedTree(t, ana, res) == t
  {
    var all := AllFiles(s, s, t);
    assert Having(all, s, s, t, Clash) == {};
    assert Having(all, s, s, t, SourceOnly) == {};
    EnumerationSize(ana.sourceOnly, {}, s);
    ConflictListSize(ana.conflicts, {}, s, s, t);
  }

  /** With the target as its own base the merge is the source, as a fast-forward says,
      exactly when the source still has every file of the target. */
  lemma FastForwardIsMergeFromTarget(s: Snapshot, t: Snapshot, ana: Analysis, res: seq<Resolution>)
    requires Real(s) && Real(t) && IsAnalysis(t, s, t, ana)
    ensures ana.kind == Clean
    ensures MergedTree(t, ana, res) == s <==> t.Keys <= s.Keys
  {
    assert Having(AllFiles(t, s, t), t, s, t, Clash) == {};
    var merged := MergedTree(t, ana, res);
    MergedTreeAt(t, s, t, ana, res);
    assert forall f :: AgreesAt(t, s, t, Chosen(res), merged, f);
    if t.Keys <= s.Keys {
      forall f ensures (f in merged <==> f in s) && (f in merged ==> merged[f] == s[f]) {
        assert AgreesAt(t, s, t, Chosen(res), merged, f);
      }
    }
    if merged == s {
      forall f | f in t ensures f in s {
        assert AgreesAt(t, s, t, Chosen(res), merged, f);
      }
    }
  }

  lemma AgreementBothWays(b: Snapshot, s: Snapshot, t: Snapshot, c: Snapshot, c': Snapshot, x: Snapshot, y: Snapshot)
    requires Real(b) && Real(s) && Real(t)
    requires forall f :: Classify(b, s, t, f) != Clash
    requires forall f :: AgreesAt(b, s, t, c, x, f)
    requires forall f :: AgreesAt(b, t, s, c', y, f)
    ensures x == y <==>
      forall f :: Classify(b, s, t, f) != SourceDeleted && Classify(b, s, t, f) != TargetDeleted
  {
    SameEverywhere(x, y);
    forall f
      ensures SameAt(x, y, f) <==>
        Classify(b, s, t, f) != SourceDeleted && Classify(b, s, t, f) != TargetDeleted
    {
      assert AgreesAt(b, s, t, c, x, f) && AgreesAt(b, t, s, c', y, f);
      assert Classify(b, s, t, f) != Clash;
    }
  }

  /** Merging two ways gives the same tree exactly when neither side deleted a file alone,
      given that nothing conflicts. */
  lemma CleanMergeIsSymmetric(b: Snapshot, s: Snapshot, t: Snapshot, st: Analysis, ts: Analysis,
                              res: seq<Resolution>, res': seq<Resolution>)
    requires Real(b) && Real(s) && Real(t)
    requires IsAnalysis(b, s, t, st) && IsAnalysis(b, t, s, ts) && st.kind == Clean
    ensures ts.kind == Clean
    ensures MergedTree(t, st, res) == MergedTree(s, ts, res') <==>
      forall f :: Classify(b, s, t, f) != SourceDeleted && Classify(b, s, t, f) != TargetDeleted
  {
    assert Having(AllFiles(b, t, s), b, t, s, Clash) == Having(AllFiles(b, s, t), b, s, t, Clash);
    MergedTreeAt(b, s, t, st, res);
    MergedTreeAt(b, t, s, ts, res');
    AgreementBothWays(b, s, t, Chosen(res), Chosen(res'), MergedTree(t, st, res), MergedTree(s, ts, res'));
  }
}
