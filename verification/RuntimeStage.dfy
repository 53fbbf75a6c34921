/** src/service-runtime.ts: publishing the packaged runtime by renames that survive a crash between any two. */
module RuntimeFiles {
  import opened Options

  /** A runtime directory whose receipt matches its files, or one that is half written or half removed. */
  datatype Tree = Whole(version: string) | Partial

  /** A staging directory: the runtime set aside, the candidate being prepared, and whether it is safe from others. */
  datatype Stage = Stage(previous: Option<Tree>, candidate: Option<Tree>, private: bool)

  datatype Files = Files(root: Option<Tree>, stages: map<string, Stage>)

  const BARE := Stage(None, None, true)

  predicate Holds(f: Files, name: string) {
    name in f.stages && f.stages[name].previous.Some?
  }

  predicate Private(f: Files) {
    forall a :: a in f.stages ==> f.stages[a].private
  }

  predicate Sound(t: Option<Tree>) {
    t.Some? ==> t.value.Whole?
  }

  ghost predicate Single(f: Files) {
    forall a, b :: Holds(f, a) && Holds(f, b) ==> a == b
  }

  /** Where a publication was interrupted, the runtime that is to stay is intact. */
  ghost predicate Intact(f: Files) {
    forall a :: Holds(f, a) ==> Sound(if f.root.Some? then f.root else f.stages[a].previous)
  }

  /** Cleaning up now, without interruption, would leave `v` in the runtime root. */
  ghost predicate Recovers(f: Files, v: Option<Tree>) {
    && Single(f) && Intact(f)
    && if f.root.Some? then v == f.root
       else && (forall a :: Holds(f, a) ==> f.stages[a].previous == v)
            && (v.Some? ==> exists a :: Holds(f, a))
  }

  /** Removing one more piece of a tree. */
  function Eroded(t: Option<Tree>): Option<Tree> {
    if t.Some? && t.value.Whole? then Some(Partial) else None
  }

  function Bulk(t: Option<Tree>): nat {
    if t.None? then 0 else if t.value.Partial? then 1 else 2
  }

  /** A staging directory may be taken apart once nothing depends on what it set aside. */
  lemma ErodingKeeps(f: Files, name: string, s: Stage, v: Option<Tree>)
    requires Recovers(f, v) && name in f.stages && (f.root.Some? || s.previous == f.stages[name].previous)
    requires s.previous.Some? ==> f.stages[name].previous.Some?
    ensures Recovers(f.(stages := f.stages[name := s]), v)
  {
    var g := f.(stages := f.stages[name := s]);
    forall a | Holds(g, a)
      ensures Holds(f, a)
    {
    }
    if f.root.None? && v.Some? {
      var a :| Holds(f, a);
      assert Holds(g, a);
    }
  }

  lemma RemovingKeeps(f: Files, name: string, v: Option<Tree>)
    requires Recovers(f, v) && name in f.stages && (f.root.Some? || f.stages[name].previous.None?)
    ensures Recovers(f.(stages := f.stages - {name}), v)
  {
    var g := f.(stages := f.stages - {name});
    forall a | Holds(g, a)
      ensures Holds(f, a)
    {
    }
    if f.root.None? && v.Some? {
      var a :| Holds(f, a);
      assert Holds(g, a);
    }
  }
}

module RuntimeStage {
  import opened Options
  import opened RuntimeFiles

  /** `Failed` is an operation that threw and changed nothing; after `Crashed` the program is gone. */
  datatype Outcome = Done | Failed | Crashed | Unsafe | Multiple | Modified

  /** What a cleanup of these files is refused for, or `Done`. */
  ghost function Verdict(f: Files): Outcome {
    if !Private(f) then Unsafe else if !Single(f) then Multiple else if !Intact(f) then Modified else Done
  }

  /** An installation also insists on an intact root to begin with. */
  ghost function Admission(f: Files): Outcome {
    if !Sound(f.root) then Modified else Verdict(f)
  }

  class Disk {
    var files: Files

    /** How many operations have gone wrong, and whether the program is gone. */
    ghost var faults: nat
    ghost var crashed: bool

    constructor (files: Files)
      ensures this.files == files && faults == 0 && !crashed
    {
      this.files, faults, crashed := files, 0, false;
    }

    /** One more operation ended like this. */
    twostate predicate Ended(o: Outcome)
      reads this
    {
      && o in {Done, Failed, Crashed} && (crashed <==> o.Crashed?)
      && faults == old(faults) + if o.Done? then 0 else 1
    }

    /** Any file operation may fail, or be the one that never happens. */
    method Attempt() returns (o: Outcome)
      requires !crashed
      modifies this`faults, this`crashed
      ensures Ended(o)
    {
      if * {
        o := Done;
      } else if * {
        o, faults := Failed, faults + 1;
      } else {
        o, faults, crashed := Crashed, faults + 1, true;
      }
    }

    /** Whoever comes next starts afresh on the same files. */
    method Restart()
      modifies this`crashed
      ensures !crashed
    {
      crashed := false;
    }

    method Put(next: Files) returns (o: Outcome)
      requires !crashed
      modifies this
      ensures Ended(o)
      ensures files == if o.Done? then next else old(files)
    {
      o := Attempt();
      if o.Done? {
        files := next;
      }
    }

    /** The runtime root becomes the stage's `previous`; the destination does not exist. */
    method SetAside(name: string) returns (o: Outcome)
      requires !crashed && files.root.Some? && name in files.stages && files.stages[name].previous.None?
      modifies this
      ensures Ended(o)
      ensures var f := old(files);
        files == if !o.Done? then f
                 else Files(None, f.stages[name := f.stages[name].(previous := f.root)])
    {
      o := Put(Files(None, files.stages[name := files.stages[name].(previous := files.root)]));
    }

    method PutBack(name: string) returns (o: Outcome)
      requires !crashed && files.root.None? && name in files.stages && files.stages[name].previous.Some?
      modifies this
      ensures Ended(o)
      ensures var f := old(files);
        files == if !o.Done? then f
                 else Files(f.stages[name].previous, f.stages[name := f.stages[name].(previous := None)])
    {
      o := Put(Files(files.stages[name].previous, files.stages[name := files.stages[name].(previous := None)]));
    }

    method Promote(name: string) returns (o: Outcome)
      requires !crashed && files.root.None? && name in files.stages && files.stages[name].candidate.Some?
      modifies this
      ensures Ended(o)
      ensures var f := old(files);
        files == if !o.Done? then f
                 else Files(f.stages[name].candidate, f.stages[name := f.stages[name].(candidate := None)])
    {
      o := Put(Files(files.stages[name].candidate, files.stages[name := files.stages[name].(candidate := None)]));
    }

    method Withdraw(name: string) returns (o: Outcome)
      requires !crashed && files.root.Some? && name in files.stages && files.stages[name].candidate.None?
      modifies this
      ensures Ended(o)
      ensures var f := old(files);
        files == if !o.Done? then f
                 else Files(None, f.stages[name := f.stages[name].(candidate := f.root)])
    {
      o := Put(Files(None, files.stages[name := files.stages[name].(candidate := files.root)]));
    }

    /** A recursive removal: piece by piece, in no particular order, and not atomic. */
    method Remove(name: string, ghost v: Option<Tree>) returns (o: Outcome)
      requires !crashed && name in files.stages
      requires files.root.Some? || files.stages[name].previous.None?
      modifies this
      ensures Ended(o)
      ensures files.root == old(files.root) && (Private(old(files)) ==> Private(files))
      ensures Recovers(old(files), v) ==> Recovers(files, v)
      ensures files.stages.Keys <= old(files.stages).Keys && (o.Done? ==> files.stages == old(files.stages) - {name})
    {
      while files.stages[name].previous.Some? || files.stages[name].candidate.Some?
        invariant name in files.stages && files.root == old(files.root)
        invariant Recovers(old(files), v) ==> Recovers(files, v)
        invariant files.root.Some? || files.stages[name].previous.None?
        invariant files.stages - {name} == old(files.stages) - {name} && (Private(old(files)) ==> Private(files))
        invariant faults == old(faults) && !crashed && files.stages.Keys <= old(files).stages.Keys
        decreases Bulk(files.stages[name].previous) + Bulk(files.stages[name].candidate)
      {
        var s := files.stages[name];
        var previousNext := *;
        var next := if s.candidate.None? || (previousNext && s.previous.Some?) then s.(previous := Eroded(s.previous))
                    else s.(candidate := Eroded(s.candidate));
        if Recovers(files, v) {
          ErodingKeeps(files, name, next, v);
        }
        o := Put(files.(stages := files.stages[name := next]));
        if !o.Done? {
          return;
        }
      }
      if Recovers(files, v) {
        RemovingKeeps(files, name, v);
      }
      o := Put(files.(stages := files.stages - {name}));
    }

    method Check(t: Option<Tree>) returns (ok: bool)
      ensures ok <==> Sound(t)
    {
      ok := t.None? || t.value.Whole?;
    }

    /** The check of every staging directory, symbolic links and foreign owners included. */
    method AllPrivate() returns (ok: bool)
      ensures ok <==> Private(files)
    {
      ok := true;
      var names := files.stages.Keys;
      while ok && names != {}
        invariant names <= files.stages.Keys
        invariant ok <==> forall a :: a in files.stages && a !in names ==> files.stages[a].private
        decreases |names|
      {
        var name :| name in names;
        ok, names := files.stages[name].private, names - {name};
      }
    }

    method Recoverable() returns (holders: set<string>)
      ensures holders == set a | a in files.stages && Holds(files, a)
    {
      holders := set a | a in files.stages && Holds(files, a);
    }

    /**
     * Whatever a crash left behind is recovered. It is refused, changing nothing, exactly for an open stage, for more
     * than one interrupted publication, and for a runtime that is not intact where one was interrupted.
     */
    method Cleanup(ghost v: Option<Tree>) returns (o: Outcome)
      requires !crashed && (Verdict(files).Done? ==> Recovers(files, v))
      modifies this
      ensures var verdict := Verdict(old(files));
        if !verdict.Done? then o == verdict && files == old(files) && faults == old(faults) && !crashed
        else Ended(o) && Recovers(files, v) && Private(files) && (o.Done? ==> files == Files(v, map[]))
             && files.stages.Keys <= old(files).stages.Keys
    {
      var allPrivate := AllPrivate();
      if !allPrivate {
        return Unsafe;
      }
      var holders := Recoverable();
      Holders(files, holders);
      if |holders| > 1 {
        return Multiple;
      }
      if holders != {} {
        var interrupted :| interrupted in holders;
        assert Holds(files, interrupted);
        if files.root.Some? {
          var ok := Check(files.root);
          if !ok {
            return Modified;
          }
        } else {
          var ok := Check(files.stages[interrupted].previous);
          if !ok {
            return Modified;
          }
          assert Intact(files);
          o := PutBack(interrupted);
          if !o.Done? {
            return;
          }
          assert forall a :: Holds(files, a) ==> old(Holds(files, a));
          // Checked once more; the rename cannot have changed it.
          ok := Check(files.root);
          if !ok {
            return Modified;
          }
        }
      }
      o := ClearStages(v);
    }

    method ClearStages(ghost v: Option<Tree>) returns (o: Outcome)
      requires !crashed && Recovers(files, v) && files.root == v && Private(files)
      requires files.root.None? ==> forall a :: a in files.stages ==> !Holds(files, a)
      modifies this
      ensures Ended(o) && Recovers(files, v) && Private(files) && (o.Done? ==> files == Files(v, map[]))
      ensures files.stages.Keys <= old(files).stages.Keys
    {
      var names := files.stages.Keys;
      o := Done;
      while names != {}
        invariant names == files.stages.Keys && Recovers(files, v) && files.root == v && Private(files)
        invariant faults == old(faults) && !crashed && names <= old(files).stages.Keys
        invariant files.root.None? ==> forall a :: a in files.stages ==> !Holds(files, a)
        decreases |names|
      {
        var name :| name in names;
        o := Remove(name, v);
        if !o.Done? {
          return;
        }
        names := names - {name};
      }
      o := Done;
    }
  }

  /** What `stageServiceRuntime` returns: a prepared candidate and the two flags that say how far publication got. */
  class StagedRuntime {
    const disk: Disk
    const name: string
    const version: string
    /** The root as publication finds it. */
    ghost const before: Option<Tree>
    var published: bool
    var movedPrevious: bool

    /** The flags tell where the old runtime and the candidate are; the root may be tampered with while it stands. */
    ghost predicate Valid()
      reads this, disk
    {
      && (movedPrevious ==> Sound(before) && before.Some?)
      && (if published then disk.files.root.Some? && movedPrevious == before.Some?
          else disk.files.root == if movedPrevious then None else before)
      && disk.files.stages == map[name := Stage(if movedPrevious then before else None,
                                                if published then None else Some(Whole(version)), true)]
    }

    constructor (disk: Disk, name: string, version: string, ghost before: Option<Tree>)
      requires disk.files == Files(before, map[name := Stage(None, Some(Whole(version)), true)])
      ensures Valid() && !published && !movedPrevious
      ensures this.disk == disk && this.name == name && this.version == version && this.before == before
    {
      this.disk, this.name, this.version, this.before := disk, name, version, before;
      published, movedPrevious := false, false;
    }

    lemma ValidRecovers()
      requires Valid() && (published ==> Sound(disk.files.root))
      ensures Recovers(disk.files, if published then disk.files.root else before) && Private(disk.files)
    {
      if !published && movedPrevious {
        assert Holds(disk.files, name);
      }
    }

    /** Refused, changing nothing, exactly when the root is no longer intact. */
    method Publish() returns (o: Outcome)
      requires Valid() && !published && !movedPrevious && !disk.crashed
      modifies this, disk
      ensures Valid() && (o.Done? <==> published) && (o.Modified? <==> !Sound(before))
      ensures o.Modified? ==> disk.files == old(disk.files) && disk.faults == old(disk.faults) && !disk.crashed
                              && !movedPrevious
      ensures !o.Modified? ==> disk.Ended(o)
      ensures o.Done? ==> disk.files.root == Some(Whole(version))
    {
      var ok := disk.Check(disk.files.root);
      if !ok {
        return Modified;
      }
      if disk.files.root.Some? {
        o := disk.SetAside(name);
        if !o.Done? {
          return;
        }
        movedPrevious := true;
      }
      o := disk.Promote(name);
      if o.Done? {
        published := true;
      }
    }

    /**
     * Refused, changing nothing, exactly when what was published is no longer intact; otherwise it restores what was
     * there before, and cut short it leaves that or what was published.
     */
    method Rollback() returns (o: Outcome)
      requires Valid() && !disk.crashed
      modifies this, disk
      ensures o.Modified? <==> old(published) && !Sound(old(disk.files.root))
      ensures o.Modified? ==> disk.files == old(disk.files) && disk.faults == old(disk.faults) && !disk.crashed
      ensures !o.Modified? ==> disk.Ended(o) && Private(disk.files)
      ensures !o.Modified? ==>
                Recovers(disk.files, before) || (old(published) && Recovers(disk.files, old(disk.files.root)))
      ensures o.Done? ==> disk.files == Files(before, map[])
    {
      if published {
        var ok := disk.Check(disk.files.root);
        if !ok {
          return Modified;
        }
        ValidRecovers();
        o := disk.Withdraw(name);
        if !o.Done? {
          return;
        }
        published := false;
        Withdrawn();
      } else {
        ValidRecovers();
      }
      if movedPrevious {
        o := disk.PutBack(name);
        if !o.Done? {
          return;
        }
        movedPrevious := false;
      }
      assert map[name := disk.files.stages[name]] - {name} == map[];
      o := disk.Remove(name, before);
    }

    /** With the new runtime withdrawn, what was there before is what would be recovered. */
    lemma Withdrawn()
      requires disk.files.root.None? && name in disk.files.stages && disk.files.stages.Keys == {name}
      requires disk.files.stages[name].previous == before && Sound(before)
      ensures Recovers(disk.files, before)
    {
      if before.Some? {
        assert Holds(disk.files, name);
      }
    }

    method Commit() returns (o: Outcome)
      requires Valid() && published && !disk.crashed
      modifies this, disk
      ensures disk.Ended(o) && disk.files.root == old(disk.files.root) && Private(disk.files)
      ensures Sound(old(disk.files.root)) ==> Recovers(disk.files, old(disk.files.root))
      ensures o.Done? ==> disk.files == Files(old(disk.files.root), map[])
    {
      if Sound(disk.files.root) {
        ValidRecovers();
      }
      assert map[name := disk.files.stages[name]] - {name} == map[];
      o := disk.Remove(name, disk.files.root);
    }
  }

  /** Preparing a candidate never disturbs what would be recovered; a failed preparation is removed again. */
  method StageRuntime(disk: Disk, name: string, version: string, ghost v: Option<Tree>)
    returns (o: Outcome, staged: StagedRuntime?)
    requires !disk.crashed && (Admission(disk.files).Done? ==> Recovers(disk.files, v))
    modifies disk
    ensures var admission := Admission(old(disk.files));
      if !admission.Done? then
        && o == admission && staged == null && disk.files == old(disk.files)
        && disk.faults == old(disk.faults) && !disk.crashed
      else
        && o in {Done, Failed, Crashed} && Recovers(disk.files, v) && Private(disk.files)
        && (o.Done? <==> staged != null) && (o.Crashed? <==> disk.crashed)
        && old(disk.faults) <= disk.faults && (o.Done? <==> disk.faults == old(disk.faults))
    ensures o.Failed? && disk.faults == old(disk.faults) + 1 ==> disk.files.stages.Keys <= old(disk.files).stages.Keys
    ensures staged != null ==> fresh(staged) && staged.disk == disk && staged.version == version
                               && staged.before == v && staged.Valid() && !staged.published && !staged.movedPrevious
  {
    staged := null;
    var ok := disk.Check(disk.files.root);
    if !ok {
      return Modified, null;
    }
    o := disk.Cleanup(v);
    if !o.Done? {
      return;
    }
    o := Prepare(disk, name, version, v);
    if o.Done? {
      staged := new StagedRuntime(disk, name, version, v);
    }
  }

  /** The candidate is written piece by piece; what has failed half-way is removed again. */
  method Prepare(disk: Disk, name: string, version: string, ghost v: Option<Tree>) returns (o: Outcome)
    requires !disk.crashed && disk.files == Files(v, map[])
    modifies disk
    ensures o in {Done, Failed, Crashed} && (o.Crashed? <==> disk.crashed)
    ensures Recovers(disk.files, v) && Private(disk.files)
    ensures old(disk.faults) <= disk.faults && (o.Done? <==> disk.faults == old(disk.faults))
    ensures o.Done? ==> disk.files == Files(v, map[name := Stage(None, Some(Whole(version)), true)])
    ensures o.Failed? && disk.faults == old(disk.faults) + 1 ==> disk.files == Files(v, map[])
  {
    o := disk.Put(Files(disk.files.root, map[name := BARE]));
    if !o.Done? {
      return;
    }
    o := disk.Put(Files(disk.files.root, map[name := Stage(None, Some(Partial), true)]));
    if o.Done? {
      o := disk.Put(Files(disk.files.root, map[name := Stage(None, Some(Whole(version)), true)]));
    }
    if o.Failed? {
      assert Recovers(disk.files, v);
      assert map[name := disk.files.stages[name]] - {name} == map[];
      var removed := disk.Remove(name, v);
      return if removed.Crashed? then Crashed else Failed;
    }
  }

  /**
   * One installation (src/service.ts:331-396): anything may go wrong before publication, during it, or after it, and
   * the program may stop between any two file operations. Short of a refusal it is done exactly if nothing went wrong.
   */
  method Install(disk: Disk, name: string, version: string, ghost v: Option<Tree>) returns (o: Outcome)
    requires !disk.crashed && (Admission(disk.files).Done? ==> Recovers(disk.files, v))
    modifies disk
    ensures var admission := Admission(old(disk.files));
      if !admission.Done? then
        o == admission && disk.files == old(disk.files) && disk.faults == old(disk.faults) && !disk.crashed
      else
        && o in {Done, Failed, Crashed} && Private(disk.files) && (o.Crashed? <==> disk.crashed)
        && (Recovers(disk.files, v) || Recovers(disk.files, Some(Whole(version))))
        && old(disk.faults) <= disk.faults && (o.Done? <==> disk.faults == old(disk.faults))
        && (o.Done? ==> disk.files == Files(Some(Whole(version)), map[]))
    ensures o.Failed? && disk.faults == old(disk.faults) + 1 ==>
              disk.files.root == Some(Whole(version)) || disk.files.stages.Keys <= old(disk.files).stages.Keys
  {
    var staged: StagedRuntime?;
    o, staged := StageRuntime(disk, name, version, v);
    if staged == null {
      return;
    }
    staged.ValidRecovers();
    o := disk.Attempt();
    if o.Done? {
      o := staged.Publish();
      staged.ValidRecovers();
    }
    if o.Done? {
      o := disk.Attempt();
    }
    if o.Crashed? {
      return;
    }
    if o.Failed? {
      var restored := staged.Rollback();
      return if restored.Crashed? then Crashed else Failed;
    }
    o := staged.Commit();
  }

  /**
   * Over any history of installations, each cut short anywhere, the root to be recovered is one that was there or was
   * published; if nothing goes wrong it is the last one. What is refused at first is refused always, and not touched.
   */
  method Operate(disk: Disk, names: seq<string>, versions: seq<string>, ghost v: Option<Tree>)
    returns (ghost w: Option<Tree>)
    requires |names| == |versions| && !disk.crashed && (Admission(disk.files).Done? ==> Recovers(disk.files, v))
    modifies disk
    ensures !Admission(old(disk.files)).Done? ==> disk.files == old(disk.files) && w == v
    ensures Admission(old(disk.files)).Done? ==> Recovers(disk.files, w) && Private(disk.files)
    ensures w == v || exists i :: 0 <= i < |versions| && w == Some(Whole(versions[i]))
    ensures v.Some? ==> w.Some?
    ensures disk.faults == old(disk.faults) && Admission(old(disk.files)).Done? && versions != [] ==>
              disk.files == Files(Some(Whole(versions[|versions| - 1])), map[])
  {
    w := v;
    var i := 0;
    while i < |versions|
      invariant 0 <= i <= |versions| && !disk.crashed
      invariant if !Admission(old(disk.files)).Done? then disk.files == old(disk.files) && w == v
                else Recovers(disk.files, w) && Private(disk.files)
      invariant w == v || exists j :: 0 <= j < i && w == Some(Whole(versions[j]))
      invariant v.Some? ==> w.Some?
      invariant old(disk.faults) <= disk.faults
      invariant disk.faults == old(disk.faults) && Admission(old(disk.files)).Done? && i > 0 ==>
                  disk.files == Files(Some(Whole(versions[i - 1])), map[])
    {
      var o := Install(disk, names[i], versions[i], w);
      w := if Admission(old(disk.files)).Done? && !Recovers(disk.files, w) then Some(Whole(versions[i])) else w;
      // The next one is the business of another run of the program.
      disk.Restart();
      i := i + 1;
    }
  }

  /** More than one interrupted publication, exactly if the set of them has more than one member. */
  lemma Holders(f: Files, holders: set<string>)
    requires holders == set a | a in f.stages && Holds(f, a)
    ensures |holders| > 1 <==> !Single(f)
    ensures holders == {} <==> forall a :: !Holds(f, a)
  {
    if a, b :| Holds(f, a) && Holds(f, b) && a != b {
      assert {a, b} <= holders;
      Larger({a, b}, holders);
    } else if holders != {} {
      var a :| a in holders;
      assert Holds(f, a) && forall b :: b in holders ==> Holds(f, b) && b == a;
      assert holders == {a};
    } else {
      assert forall a :: Holds(f, a) ==> a in holders;
    }
  }

  lemma Larger(a: set<string>, b: set<string>)
    requires a <= b
    ensures |a| <= |b|
  {
    assert b == a + (b - a);
  }
}
