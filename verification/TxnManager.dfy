/** Manager.Run and RecoverOnBoot over the disk. */
module TxnManager {
  import opened Wrappers
  import opened TxnImage
  import opened TxnDisk

  datatype Failure =
    | NoProbe | BadKind | NotConfigOnly | AlreadyConfigured | Io | InflightExists | ProbeFailed | MarkerNotCommitted

  /** b differs from a at these paths only, apart from files another writer created; markers and history agree. */
  ghost predicate Confined(a: Image, b: Image, paths: set<Path>) {
    && b.marker == a.marker && SameHistory(a, b) && LaterInodes(a, b)
    && forall p | p !in paths :: At(b, p) == At(a, p) || (p !in a.files && Foreign(b, p))
  }

  /** Inodes and another writer's files only ever come on top. */
  predicate LaterInodes(a: Image, b: Image) {
    a.foreign <= b.foreign && a.next <= b.next && forall i | i in b.foreign && i !in a.foreign :: a.next <= i
  }

  /** The live files are the very same, and no other writer has acted. */
  ghost predicate SameLive(a: Image, b: Image) {
    b.foreign == a.foreign && forall p: Path | p.role == Live :: At(b, p) == At(a, p)
  }

  predicate Siblings(paths: set<Path>) { forall p | p in paths :: p.role != Live }

  lemma ConfinedTrans(a: Image, b: Image, c: Image, p: set<Path>, q: set<Path>, r: set<Path>)
    requires Confined(a, b, p) && Confined(b, c, q) && p <= r && q <= r
    ensures Confined(a, c, r)
  {
    forall x | x !in r ensures At(c, x) == At(a, x) || (x !in a.files && Foreign(c, x)) {
      assert At(b, x) == At(a, x) || (x !in a.files && Foreign(b, x));
      assert At(c, x) == At(b, x) || (x !in b.files && Foreign(c, x));
    }
  }

  lemma InterferenceConfined(writer: Option<string>, a: Image, b: Image)
    requires Interferes(writer, a, b)
    ensures Confined(a, b, {})
  {
  }

  lemma OldStays(a: Image, b: Image, paths: set<Path>, side: Side)
    requires Confined(a, b, paths) && Siblings(paths) && IsOld(a, side)
    ensures IsOld(b, side)
  {
    assert At(b, Path(side.path, Live)) == At(a, Path(side.path, Live)) || Foreign(b, Path(side.path, Live));
  }

  lemma IdleIsOld(img: Image, job: Job)
    requires Recoverable(img, job) && img.marker.None? && !img.decided && Untroubled(img)
    ensures AllOld(img, job) && OthersKept(img, job)
  {
  }

  lemma NoWriterNoForeign(img: Image, job: Job)
    requires Recoverable(img, job) && !job.config.installOnly
    ensures img.foreign == {}
  {
  }

  class Manager {
    const configPath: string
    const binaryPath: string
    const installOnly: bool
    const disk: Disk

    constructor (configPath: string, binaryPath: string, installOnly: bool, disk: Disk)
      ensures this.configPath == configPath && this.binaryPath == binaryPath
      ensures this.installOnly == installOnly && this.disk == disk
    {
      this.configPath := configPath;
      this.binaryPath := binaryPath;
      this.installOnly := installOnly;
      this.disk := disk;
    }

    // ---- Operations whose states keep the transaction safe ----

    method Look(path: Path, ghost job: Job) returns (found: Lookup)
      requires disk.Safe(job)
      modifies disk
      ensures disk.Safe(job) && Confined(old(disk.image), disk.image, {})
      ensures found.Present? ==> path in disk.image.files && disk.image.files[path] == found.file
      ensures found.Absent? ==> path !in disk.image.files
      ensures forall p: Path | p.role != Live :: At(disk.image, p) == At(old(disk.image), p)
      ensures disk.calm ==> old(disk.calm) && disk.image == old(disk.image) && !found.Unreadable?
    {
      hide Recoverable;
      found := disk.Stat(path);
      InterferenceKeeps(disk.writer, old(disk.image), disk.image, job);
      InterferenceConfined(disk.writer, old(disk.image), disk.image);
    }

    /** Removes a sibling file, ignoring any error. */
    method Discard(path: Path, ghost job: Job) returns (outcome: Outcome)
      requires disk.Safe(job) && Spare(disk.image, job, path)
      modifies disk
      ensures disk.Safe(job) && Confined(old(disk.image), disk.image, {path})
      ensures disk.calm ==> old(disk.calm) && SameLive(old(disk.image), disk.image)
      ensures disk.calm ==> outcome == if path in old(disk.image).files then Done else Missing
      ensures disk.calm ==> disk.image.files == old(disk.image).files - {path}
    {
      hide Recoverable;
      ghost var before;
      outcome, before := disk.Remove(path);
      InterferenceKeeps(disk.writer, old(disk.image), before, job);
      InterferenceConfined(disk.writer, old(disk.image), before);
      SpareStays(old(disk.image), before, {}, job, path);
      RemovedKeeps(before, job, path);
    }

    static lemma SpareStays(a: Image, b: Image, paths: set<Path>, job: Job, path: Path)
      requires Confined(a, b, paths) && Siblings(paths) && Spare(a, job, path)
      ensures Spare(b, job, path)
    {
      if IsOld(a, job.config) { OldStays(a, b, paths, job.config); }
      if IsOld(a, job.binary) { OldStays(a, b, paths, job.binary); }
    }

    /** writeFileSync: a fresh file renamed into place; it may also report an error after the rename. */
    method WriteFileSync(path: Path, bytes: Bytes, ghost job: Job) returns (ok: bool)
      requires disk.Safe(job) && disk.image.marker.None? && path.role != Live
      modifies disk
      ensures disk.Safe(job) && Confined(old(disk.image), disk.image, {path})
      ensures ok ==> Contains(disk.image, path, bytes)
      ensures disk.calm ==> old(disk.calm) && ok && SameLive(old(disk.image), disk.image)
    {
      hide Recoverable;
      ghost var before;
      ok, before := disk.Put(path, bytes);
      InterferenceKeeps(disk.writer, old(disk.image), before, job);
      InterferenceConfined(disk.writer, old(disk.image), before);
      WroteKeeps(before, job, path, bytes);
      if ok {
        ok := disk.Falter();
      }
    }

    method OverwriteLkg(base: string, bytes: Bytes, ghost job: Job) returns (ok: bool)
      requires disk.Safe(job) && disk.image.marker.None?
      modifies disk
      ensures disk.Safe(job) && Confined(old(disk.image), disk.image, {Path(base, Lkg)})
      ensures ok ==> Contains(disk.image, Path(base, Lkg), bytes)
      ensures disk.calm ==> old(disk.calm) && ok && SameLive(old(disk.image), disk.image)
    {
      hide Recoverable, Overwritten;
      ghost var before;
      ok, before := disk.Overwrite(Path(base, Lkg), bytes);
      InterferenceKeeps(disk.writer, old(disk.image), before, job);
      InterferenceConfined(disk.writer, old(disk.image), before);
      OverwrittenKeeps(before, job, Path(base, Lkg), bytes);
      OverwrittenHistory(before, Path(base, Lkg), bytes);
    }

    static lemma OverwrittenHistory(img: Image, path: Path, bytes: Bytes)
      ensures var t := Overwritten(img, path, bytes);
        t.marker == img.marker && SameHistory(img, t) && t.foreign == img.foreign && img.next <= t.next
    {
    }

    /** copyFile: the target passes through a state that holds a prefix only. */
    method CopyFile(bytes: Bytes, base: string, ghost job: Job) returns (ok: bool)
      requires disk.Safe(job) && disk.image.marker.None?
      modifies disk
      ensures disk.Safe(job) && Confined(old(disk.image), disk.image, {Path(base, Lkg)})
      ensures ok ==> Contains(disk.image, Path(base, Lkg), bytes)
      ensures disk.calm ==> old(disk.calm) && ok && SameLive(old(disk.image), disk.image)
    {
      hide Recoverable;
      ghost var paths := {Path(base, Lkg)};
      var n: nat :| n <= |bytes|;
      ok := OverwriteLkg(base, bytes[..n], job);
      ghost var partial := disk.image;
      if !ok {
        return;
      }
      ok := OverwriteLkg(base, bytes, job);
      ConfinedTrans(old(disk.image), partial, disk.image, paths, paths, paths);
      if ok {
        ok := disk.Falter();
      }
      var closing: bool := *;
      if !ok && !closing {
        ghost var failed := disk.image;
        var _ := Discard(Path(base, Lkg), job);
        ConfinedTrans(old(disk.image), failed, disk.image, paths, paths, paths);
      }
    }

    // ---- The phases of Run ----

    /** Removes leftovers of an earlier transaction; an error stops the run. */
    method ClearLeftovers(leftovers: seq<Path>, ghost job: Job) returns (ok: bool)
      requires disk.Safe(job) && disk.image.marker.None? && Siblings(set p | p in leftovers)
      modifies disk
      ensures disk.Safe(job) && Confined(old(disk.image), disk.image, set p | p in leftovers)
      ensures disk.calm ==> old(disk.calm) && ok && SameLive(old(disk.image), disk.image)
    {
      hide Recoverable;
      ghost var paths := set p | p in leftovers;
      var i := 0;
      while i < |leftovers|
        invariant 0 <= i <= |leftovers| && disk.Safe(job) && Confined(old(disk.image), disk.image, paths)
        invariant disk.calm ==> old(disk.calm) && SameLive(old(disk.image), disk.image)
      {
        ghost var start := disk.image;
        var found := Look(leftovers[i], job);
        ghost var looked := disk.image;
        ConfinedTrans(old(disk.image), start, looked, paths, {}, paths);
        if found.Present? {
          var outcome := Discard(leftovers[i], job);
          ConfinedTrans(old(disk.image), looked, disk.image, paths, {leftovers[i]}, paths);
          if !outcome.Done? {
            return false;
          }
        }
        i := i + 1;
      }
      return true;
    }

    /** snapshotLkg for one side: copies the live file unless there is none. */
    method SnapshotLkg(ghost side: Side, path: string, ghost job: Job) returns (ok: bool, noPrior: bool)
      requires disk.Safe(job) && disk.image.marker.None? && !disk.image.decided && Untroubled(disk.image)
      requires Swaps(job, side) && side.path == path
      modifies disk
      ensures disk.Safe(job) && Confined(old(disk.image), disk.image, {Path(path, Lkg)})
      ensures ok ==> (noPrior ==> side.prior.None?) && (!noPrior && !side.installOnly ==> side.prior.Some?)
      ensures ok ==> Snapshotted(disk.image, side)
      ensures disk.calm ==> old(disk.calm) && ok && SameLive(old(disk.image), disk.image)
      ensures disk.calm ==> noPrior == (Path(path, Live) !in old(disk.image).files)
    {
      hide Recoverable;
      noPrior := false;
      var found := Look(Path(path, Live), job);
      ghost var looked := disk.image;
      IdleIsOld(looked, job);
      if found.Absent? {
        return true, true;
      }
      if found.Unreadable? {
        return false, false;
      }
      ok := CopyFile(found.file.bytes, path, job);
      ConfinedTrans(old(disk.image), looked, disk.image, {}, {Path(path, Lkg)}, {Path(path, Lkg)});
      if ok && !side.installOnly {
        SnapshotTaken(looked, disk.image, job, side);
      }
    }

    static lemma SnapshotTaken(a: Image, b: Image, job: Job, side: Side)
      requires ValidJob(job) && Recoverable(a, job) && Swaps(job, side) && IsOld(a, side) && !side.installOnly
      requires Path(side.path, Live) in a.files
      requires Contains(b, Path(side.path, Lkg), a.files[Path(side.path, Live)].bytes)
      ensures side.prior.Some? && Snapshotted(b, side)
    {
    }

    /** rollbackStaging and rollbackLkgs: removes one sibling of each swapped file, ignoring errors. */
    method DiscardSiblings(role: Role, config: bool, binary: bool, ghost job: Job)
      requires disk.Safe(job) && role != Live && (Underway(disk.image) ==> AllOld(disk.image, job))
      modifies disk
      ensures disk.Safe(job) && Confined(old(disk.image), disk.image, {Path(configPath, role), Path(binaryPath, role)})
      ensures disk.calm ==> old(disk.calm) && SameLive(old(disk.image), disk.image)
      ensures disk.calm ==> disk.image.files == old(disk.image).files
                                            - (if config then {Path(configPath, role)} else {})
                                            - (if binary then {Path(binaryPath, role)} else {})
    {
      hide Recoverable;
      ghost var paths := {Path(configPath, role), Path(binaryPath, role)};
      if config {
        var _ := Discard(Path(configPath, role), job);
      }
      ghost var cleared := disk.image;
      ConfinedTrans(old(disk.image), cleared, cleared, {Path(configPath, role)}, {}, paths);
      if binary {
        SpareStays(old(disk.image), cleared, {Path(configPath, role)}, job, Path(binaryPath, role));
        var _ := Discard(Path(binaryPath, role), job);
        ConfinedTrans(old(disk.image), cleared, disk.image, paths, {Path(binaryPath, role)}, paths);
      }
    }

    predicate For(job: Job) {
      job.config.path == configPath && job.binary.path == binaryPath && ValidJob(job)
    }

    predicate Offers(job: Job, config: Bytes, binary: Bytes) {
      job.config.candidate == config && job.binary.candidate == binary
    }

    ghost predicate AtRest(job: Job)
      reads disk
    {
      disk.Safe(job) && disk.image.marker.None? && !disk.image.decided && Untroubled(disk.image)
    }

    /** Snapshots and candidates are in place for the swapped sides. */
    predicate Staged(img: Image, job: Job) {
      && (SwapsConfig(job.kind) ==>
            Snapshotted(img, job.config) && Contains(img, Path(configPath, Staging), job.config.candidate))
      && (SwapsBinary(job.kind) ==>
            Snapshotted(img, job.binary) && Contains(img, Path(binaryPath, Staging), job.binary.candidate))
    }

    function AllSiblings(): set<Path> {
      {Path(configPath, Staging), Path(configPath, Lkg), Path(binaryPath, Staging), Path(binaryPath, Lkg)}
    }

    /** Steps 2 of Run: the snapshots; an error leaves no marker behind. */
    method SnapshotAll(ghost job: Job, kind: Kind) returns (ok: bool, noPriorConfig: bool, noPriorBinary: bool)
      requires For(job) && AtRest(job) && kind == job.kind && (installOnly <==> job.config.installOnly)
      modifies disk
      ensures AtRest(job) && Confined(old(disk.image), disk.image, AllSiblings())
      ensures ok && SwapsConfig(kind) ==>
                Snapshotted(disk.image, job.config) && noPriorConfig == job.config.prior.None?
                && (installOnly ==> noPriorConfig)
      ensures ok && SwapsBinary(kind) ==> Snapshotted(disk.image, job.binary) && noPriorBinary == job.binary.prior.None?
      ensures disk.calm ==> old(disk.calm) && SameLive(old(disk.image), disk.image)
      ensures disk.calm ==> ok == !(installOnly && SwapsConfig(kind) && Path(configPath, Live) in old(disk.image).files)
    {
      hide Recoverable;
      ok, noPriorConfig, noPriorBinary := true, false, false;
      if SwapsConfig(kind) {
        ok, noPriorConfig := SnapshotLkg(job.config, configPath, job);
        ghost var taken := disk.image;
        ConfinedTrans(old(disk.image), taken, taken, {Path(configPath, Lkg)}, {}, AllSiblings());
        if !ok {
          return;
        }
        if installOnly && !noPriorConfig {
          var _ := Discard(Path(configPath, Lkg), job);
          ConfinedTrans(old(disk.image), taken, disk.image, AllSiblings(), {Path(configPath, Lkg)}, AllSiblings());
          return false, false, false;
        }
      }
      if SwapsBinary(kind) {
        ghost var first := disk.image;
        ok, noPriorBinary := SnapshotLkg(job.binary, binaryPath, job);
        ghost var taken := disk.image;
        ConfinedTrans(old(disk.image), first, taken, AllSiblings(), {Path(binaryPath, Lkg)}, AllSiblings());
        if !ok {
          DiscardSiblings(Lkg, SwapsConfig(kind), true, job);
          ConfinedTrans(old(disk.image), taken, disk.image, AllSiblings(),
                                  {Path(configPath, Lkg), Path(binaryPath, Lkg)},
                        AllSiblings());
          return;
        }
        SnapshotStays(first, taken, {Path(binaryPath, Lkg)}, job.config);
      }
    }

    static lemma SnapshotStays(a: Image, b: Image, paths: set<Path>, side: Side)
      requires Confined(a, b, paths) && Path(side.path, Lkg) !in paths
      ensures Snapshotted(a, side) ==> Snapshotted(b, side)
    {
      assert At(b, Path(side.path, Lkg)) == At(a, Path(side.path, Lkg)) || Path(side.path, Lkg) !in a.files;
    }

    static lemma ContentStays(a: Image, b: Image, paths: set<Path>, path: Path, bytes: Bytes)
      requires Confined(a, b, paths) && path !in paths
      ensures Contains(a, path, bytes) ==> Contains(b, path, bytes)
    {
      assert At(b, path) == At(a, path) || path !in a.files;
    }

    /** Step 3 of Run: the candidates, with everything removed again on an error. */
    method StageAll(ghost job: Job, kind: Kind, config: Bytes, binary: Bytes) returns (ok: bool)
      requires For(job) && AtRest(job) && kind == job.kind && Offers(job, config, binary)
      requires SwapsConfig(kind) ==> Snapshotted(disk.image, job.config)
      requires SwapsBinary(kind) ==> Snapshotted(disk.image, job.binary)
      modifies disk
      ensures AtRest(job)
      ensures ok ==> Staged(disk.image, job)
      ensures disk.calm ==> old(disk.calm) && ok && SameLive(old(disk.image), disk.image)
    {
      hide Recoverable;
      ok := true;
      if SwapsConfig(kind) {
        ok := WriteFileSync(Path(configPath, Staging), config, job);
        SnapshotStays(old(disk.image), disk.image, {Path(configPath, Staging)}, job.config);
        SnapshotStays(old(disk.image), disk.image, {Path(configPath, Staging)}, job.binary);
        if !ok {
          DiscardSiblings(Lkg, true, SwapsBinary(kind), job);
          return;
        }
      }
      if SwapsBinary(kind) {
        ghost var first := disk.image;
        ok := WriteFileSync(Path(binaryPath, Staging), binary, job);
        SnapshotStays(first, disk.image, {Path(binaryPath, Staging)}, job.config);
        SnapshotStays(first, disk.image, {Path(binaryPath, Staging)}, job.binary);
        ContentStays(first, disk.image, {Path(binaryPath, Staging)}, Path(configPath, Staging), job.config.candidate);
        if !ok {
          DiscardSiblings(Staging, SwapsConfig(kind), false, job);
          DiscardSiblings(Lkg, SwapsConfig(kind), true, job);
          return;
        }
        ok := disk.Falter();
        if !ok {
          DiscardSiblings(Staging, SwapsConfig(kind), true, job);
          DiscardSiblings(Lkg, SwapsConfig(kind), true, job);
        }
      }
    }

    /** No candidate of a swapped file is left beside it. */
    predicate CandidatesGone(img: Image, kind: Kind) {
      && (SwapsConfig(kind) ==> Path(configPath, Staging) !in img.files)
      && (SwapsBinary(kind) ==> Path(binaryPath, Staging) !in img.files)
    }

    /** Nothing of the transaction is left beside the swapped files. */
    predicate Tidy(img: Image, kind: Kind) {
      && CandidatesGone(img, kind)
      && (SwapsConfig(kind) ==> Path(configPath, Lkg) !in img.files)
      && (SwapsBinary(kind) ==> Path(binaryPath, Lkg) !in img.files)
    }

    /** Step 5 of Run on a failed probe: nothing was swapped, so everything is removed and the marker last. */
    method Abandon(ghost job: Job, kind: Kind)
      requires For(job) && disk.Safe(job) && Underway(disk.image) && AllOld(disk.image, job)
      modifies disk
      ensures disk.Safe(job) && SameHistory(old(disk.image), disk.image)
      ensures AllOld(disk.image, job) && (disk.image.marker.Some? ==> Underway(disk.image))
      ensures disk.calm ==> old(disk.calm) && disk.image.marker.None? && SameLive(old(disk.image), disk.image)
      ensures disk.calm ==> Tidy(disk.image, kind)
    {
      hide Recoverable;
      ghost var start := disk.image;
      DiscardSiblings(Staging, SwapsConfig(kind), SwapsBinary(kind), job);
      AllOldStays(start, disk.image, {Path(configPath, Staging), Path(binaryPath, Staging)}, job);
      ghost var swept := disk.image;
      DiscardSiblings(Lkg, SwapsConfig(kind), SwapsBinary(kind), job);
      AllOldStays(swept, disk.image, {Path(configPath, Lkg), Path(binaryPath, Lkg)}, job);
      var _ := DropMarker(job);
    }

    static lemma AllOldStays(a: Image, b: Image, paths: set<Path>, job: Job)
      requires Confined(a, b, paths) && Siblings(paths)
      ensures AllOld(a, job) ==> AllOld(b, job)
    {
      if AllOld(a, job) {
        if SwapsConfig(job.kind) { OldStays(a, b, paths, job.config); }
        if SwapsBinary(job.kind) { OldStays(a, b, paths, job.binary); }
      }
    }

    /** removePending, once the live files are what the marker's removal will claim. */
    method DropMarker(ghost job: Job) returns (ok: bool)
      requires disk.Safe(job) && (Underway(disk.image) ==> AllOld(disk.image, job))
      modifies disk
      ensures disk.Safe(job)
      ensures SameHistory(old(disk.image), disk.image) && LaterInodes(old(disk.image), disk.image)
      ensures ok ==> disk.image.marker.None?
      ensures !ok ==> disk.image.marker == old(disk.image).marker
      ensures forall p ::
                At(disk.image, p) == At(old(disk.image), p) || (p !in old(disk.image).files && Foreign(disk.image, p))
      ensures disk.calm ==> old(disk.calm) && ok && SameLive(old(disk.image), disk.image)
      ensures disk.calm ==> disk.image.files == old(disk.image).files
    {
      hide Recoverable;
      ghost var before;
      ok, before := disk.RemovePending(None);
      InterferenceKeeps(disk.writer, old(disk.image), before, job);
      InterferenceConfined(disk.writer, old(disk.image), before);
      AllOldStays(old(disk.image), before, {}, job);
      OldRests(before, job);
      UnmarkedKeeps(before, job, None);
    }

    static lemma OldRests(img: Image, job: Job)
      ensures AllOld(img, job) ==>
                && (SwapsConfig(job.kind) ==> Rests(Unmarked(img, None), job.config))
                && (SwapsBinary(job.kind) ==> Rests(Unmarked(img, None), job.binary))
    {
    }

    /** Step 6a of Run: binary first, then config; a first configuration is linked, never renamed over another file. */
    method Swap(ghost job: Job, kind: Kind) returns (ok: bool)
      requires For(job) && disk.Safe(job) && kind == job.kind && (installOnly <==> job.config.installOnly)
      requires Underway(disk.image) && AllOld(disk.image, job) && Staged(disk.image, job) && Untroubled(disk.image)
      modifies disk
      ensures disk.Safe(job) && !disk.image.decided && Untroubled(disk.image)
      ensures ok ==> AllNew(disk.image, job) && disk.image.marker == old(disk.image).marker
      ensures disk.calm && (installOnly ==> Path(configPath, Live) !in old(disk.image).files) ==> ok
      ensures disk.calm ==> old(disk.calm)
      ensures ok && !installOnly ==> CandidatesGone(disk.image, kind)
    {
      hide Recoverable;
      InFlight(disk.image, job);
      ok := true;
      if SwapsBinary(kind) {
        ok := SwapByRename(job.binary, binaryPath, job);
        InFlight(disk.image, job);
        if !ok {
          return;
        }
      }
      if SwapsConfig(kind) {
        if installOnly {
          ok := InstallByLink(job);
        } else {
          ok := SwapByRename(job.config, configPath, job);
          InFlight(disk.image, job);
        }
      }
    }

    static lemma InFlight(img: Image, job: Job)
      requires Recoverable(img, job) && Underway(img)
      ensures !img.decided
    {
    }

    /** The siblings of one side hold what the commit needs. */
    predicate Loaded(img: Image, side: Side) {
      Snapshotted(img, side) && Contains(img, Path(side.path, Staging), side.candidate)
    }

    method SwapByRename(ghost side: Side, path: string, ghost job: Job) returns (ok: bool)
      requires For(job) && disk.Safe(job) && Underway(disk.image) && Swaps(job, side) && !side.installOnly
      requires path == side.path && Loaded(disk.image, side) && !job.config.installOnly
      modifies disk
      ensures disk.Safe(job) && Underway(disk.image) && disk.image.marker == old(disk.image).marker
      ensures forall p: Path :: p.base != path ==> At(disk.image, p) == At(old(disk.image), p)
      ensures disk.image.foreign == {} && SameHistory(old(disk.image), disk.image)
      ensures ok ==> IsNew(disk.image, side)
      ensures disk.calm ==> old(disk.calm) && ok
      ensures ok ==> Path(path, Staging) !in disk.image.files
    {
      hide Recoverable;
      ghost var before;
      ok, before := disk.Rename(Path(path, Staging), Path(path, Live));
      InterferenceKeeps(disk.writer, old(disk.image), before, job);
      if ok {
        NoWriterNoForeign(before, job);
        CommitKeeps(before, job, side);
      }
      NoWriterNoForeign(before, job);
    }

    method InstallByLink(ghost job: Job) returns (ok: bool)
      requires For(job) && disk.Safe(job) && Underway(disk.image) && job.config.installOnly && SwapsConfig(job.kind)
      requires AllOld(disk.image, job) && Loaded(disk.image, job.config) && Untroubled(disk.image)
      modifies disk
      ensures disk.Safe(job) && !disk.image.decided && Untroubled(disk.image)
      ensures ok ==> AllNew(disk.image, job) && disk.image.marker == old(disk.image).marker
      ensures disk.calm && Path(configPath, Live) !in old(disk.image).files ==> ok
      ensures disk.calm ==> old(disk.calm)
    {
      hide Recoverable;
      InFlight(disk.image, job);
      ghost var before;
      ok, before := disk.Link(Path(configPath, Staging), Path(configPath, Live));
      InterferenceKeeps(disk.writer, old(disk.image), before, job);
      InterferenceConfined(disk.writer, old(disk.image), before);
      AllOldStays(old(disk.image), before, {}, job);
      ContentStays(old(disk.image), before, {}, Path(configPath, Staging), job.config.candidate);
      if ok {
        LinkKeeps(before, job);
      } else {
        ghost var refused := disk.image;
        var _ := Discard(Path(configPath, Staging), job);
        AllOldStays(refused, disk.image, {Path(configPath, Staging)}, job);
        var _ := DropMarker(job);
      }
    }

    /** After the decision only siblings and the marker go. */
    method SweepUp(ghost job: Job, kind: Kind)
      requires For(job) && disk.Safe(job) && !Underway(disk.image)
      requires !installOnly ==> CandidatesGone(disk.image, kind)
      requires installOnly ==> kind.ConfigKind?
      modifies disk
      ensures disk.Safe(job) && SameHistory(old(disk.image), disk.image)
      ensures disk.calm ==> old(disk.calm) && disk.image.marker.None? && Tidy(disk.image, kind)
    {
      hide Recoverable, SameLive;
      if installOnly {
        var _ := Discard(Path(configPath, Staging), job);
      }
      if SwapsConfig(kind) {
        var _ := Discard(Path(configPath, Lkg), job);
      }
      if SwapsBinary(kind) {
        var _ := Discard(Path(binaryPath, Lkg), job);
      }
      var _ := DropMarker(job);
    }

    /** Steps 6b and 6c of Run. */
    method Finish(p: Pending, ghost job: Job, kind: Kind) returns (ok: bool)
      requires For(job) && disk.Safe(job) && Underway(disk.image) && AllNew(disk.image, job) && Describes(p, job)
      requires disk.image.marker == Some(p) && job.verdict.None? && Untroubled(disk.image)
      requires kind == job.kind && (installOnly <==> job.config.installOnly)
      requires !installOnly ==> CandidatesGone(disk.image, kind)
      modifies disk
      ensures disk.Safe(job) && Untroubled(disk.image) && disk.image.decided == ok
      ensures !ok ==> Underway(disk.image) && AllNew(disk.image, job)
      ensures disk.calm ==> old(disk.calm) && ok && disk.image.marker.None?
      ensures ok ==> AllNew(disk.image, job)
      ensures disk.calm ==> Tidy(disk.image, kind)
    {
      hide Recoverable;
      InFlight(disk.image, job);
      ghost var before;
      ok, before := disk.WritePending(p.(phase := Committed));
      InterferenceKeeps(disk.writer, old(disk.image), before, job);
      AllNewStays(disk.writer, old(disk.image), before, job);
      if !ok {
        return;
      }
      MarkedKeeps(before, job, p.(phase := Committed));
      SweepUp(job, kind);
      DecidedIsNew(disk.image, job);
    }

    static lemma DecidedIsNew(img: Image, job: Job)
      requires Recoverable(img, job) && img.decided
      ensures AllNew(img, job)
    {
    }

    static lemma AllNewStays(writer: Option<string>, a: Image, b: Image, job: Job)
      requires Interferes(writer, a, b) && Recoverable(a, job)
      ensures AllNew(a, job) ==> AllNew(b, job)
    {
    }

    /** Step 4 of Run. */
    method MarkInflight(p: Pending, ghost job: Job, kind: Kind) returns (ok: bool)
      requires For(job) && AtRest(job) && Staged(disk.image, job) && Describes(p, job) && p.phase.Inflight?
      requires job.config.installOnly ==> job.config.prior.None?
      modifies disk
      ensures disk.Safe(job) && !disk.image.decided && Untroubled(disk.image)
      ensures if ok then disk.image.marker == Some(p) && AllOld(disk.image, job) && Staged(disk.image, job)
              else disk.image.marker.None?
      ensures disk.calm ==> old(disk.calm) && ok && SameLive(old(disk.image), disk.image)
    {
      hide Recoverable;
      ghost var start := disk.image;
      ghost var before;
      ok, before := disk.WritePending(p);
      InterferenceKeeps(disk.writer, start, before, job);
      InterferenceConfined(disk.writer, start, before);
      SnapshotStays(start, before, {}, job.config);
      SnapshotStays(start, before, {}, job.binary);
      ContentStays(start, before, {}, Path(configPath, Staging), job.config.candidate);
      ContentStays(start, before, {}, Path(binaryPath, Staging), job.binary.candidate);
      IdleIsOld(before, job);
      if ok {
        MarkedKeeps(before, job, p);
      } else {
        DiscardSiblings(Staging, SwapsConfig(kind), SwapsBinary(kind), job);
        DiscardSiblings(Lkg, SwapsConfig(kind), SwapsBinary(kind), job);
      }
    }

    predicate ValidKind(kind: Kind, config: Bytes, binary: Bytes) {
      match kind
      case ConfigKind => config != [] && binary == [] && configPath != ""
      case BinaryKind => binary != [] && config == [] && binaryPath != ""
      case BothKind => config != [] && binary != [] && configPath != "" && binaryPath != ""
      case UnknownKind => false
    }

    /** What a run with these arguments is about, from the disk it starts on; only an accepting probe can decide it. */
    function JobOf(start: Image, kind: Kind, config: Bytes, binary: Bytes, probe: Option<bool>): Job {
      Job(kind,
          Side(configPath, BytesAt(start, configPath), config, installOnly && kind.ConfigKind?),
          Side(binaryPath, BytesAt(start, binaryPath), binary, false),
          if probe == Some(true) then None else Some(false), None)
    }

    static function BytesAt(img: Image, base: string): Option<Bytes> {
      if Path(base, Live) in img.files then Some(img.files[Path(base, Live)].bytes) else None
    }

    /** A disk at the start of a run: nothing recorded yet, and no leftover snapshot is a hard link to another file. */
    static ghost predicate Pristine(img: Image) {
      && img.foreign == {} && !img.trampled && !img.decided && Untroubled(img)
      && (forall p | p in img.files :: img.files[p].inode < img.next)
      && forall p, q | p in img.files && q in img.files && p.role == Lkg && p != q ::
           img.files[p].inode != img.files[q].inode
    }

    lemma StartsAtRest(kind: Kind, config: Bytes, binary: Bytes, probe: Option<bool>)
      requires configPath != binaryPath && disk.trace == [disk.image] && Pristine(disk.image)
      requires disk.writer.Some? ==> installOnly && kind.ConfigKind? && disk.writer.value == configPath
      ensures disk.image.marker.None? ==> AtRest(JobOf(disk.image, kind, config, binary, probe))
    {
    }

    /**
     * Manager.Run.  `probe` is what the probe function would answer, None when there is none.  Every durable state on
     * the way is recoverable; success means the decision for the candidate is durable, and an error after the swap
     * leaves the marker inflight.
     */
    method Run(txnId: string, kind: Kind, config: Bytes, binary: Bytes, probe: Option<bool>, ghost job: Job)
      returns (committed: bool, error: Option<Failure>)
      requires configPath != binaryPath && job == JobOf(disk.image, kind, config, binary, probe)
      requires disk.trace == [disk.image] && Pristine(disk.image)
      requires disk.writer.Some? ==> installOnly && disk.writer.value == configPath
      modifies disk
      ensures old(disk.image).marker.Some? ==> !committed && error.Some? && Confined(old(disk.image), disk.image, {})
      ensures old(disk.image).marker.None? && ValidKind(kind, config, binary) && (installOnly ==> kind.ConfigKind?) ==>
                disk.Safe(job) && Untroubled(disk.image) && disk.image.decided == (committed && error.None?)
      ensures committed && error.Some? ==> Underway(disk.image) && AllNew(disk.image, job)
      ensures !committed ==> error.Some?
      ensures probe != Some(true) ==> !committed && disk.image.decided == old(disk.image).decided
      ensures (old(disk.image).marker.None? && (installOnly ==> kind.ConfigKind?) && ValidKind(kind, config, binary)
               && probe != Some(true)) ==> AllOld(disk.image, job)
      ensures committed && error.None? ==> AllNew(disk.image, job)
      ensures error == Some(ProbeFailed) ==> probe == Some(false)
      ensures disk.calm ==>
                error == if probe.None? then Some(NoProbe)
                         else if !ValidKind(kind, config, binary) then Some(BadKind)
                         else if installOnly && !kind.ConfigKind? then Some(NotConfigOnly)
                         else if installOnly && Path(configPath, Live) in old(disk.image).files
                           then Some(AlreadyConfigured)
                         else if old(disk.image).marker.Some? then Some(InflightExists)
                         else if probe == Some(false) then Some(ProbeFailed)
                         else None
      ensures disk.calm && old(disk.image).marker.None? ==> disk.image.marker.None?
      ensures disk.calm && (error.None? || error == Some(ProbeFailed)) ==> Tidy(disk.image, kind)
    {
      hide Recoverable;
      if probe.None? {
        NothingRun(kind, config, binary, probe);
        return false, Some(NoProbe);
      }
      if !ValidKind(kind, config, binary) {
        return false, Some(BadKind);
      }
      if installOnly && !kind.ConfigKind? {
        return false, Some(NotConfigOnly);
      }
      NothingRun(kind, config, binary, probe);
      var blocked := Preflight(job);
      if blocked.Some? {
        return false, blocked;
      }
      error := RunAtRest(txnId, kind, config, binary, probe.value, job);
      committed := error.None? || error == Some(MarkerNotCommitted);
    }

    lemma NothingRun(kind: Kind, config: Bytes, binary: Bytes, probe: Option<bool>)
      requires configPath != binaryPath && disk.trace == [disk.image] && Pristine(disk.image)
      requires disk.writer.Some? ==> installOnly && disk.writer.value == configPath
      ensures disk.image.marker.None? && (installOnly ==> kind.ConfigKind?) ==>
                AtRest(JobOf(disk.image, kind, config, binary, probe))
    {
      if installOnly ==> kind.ConfigKind? { StartsAtRest(kind, config, binary, probe); }
    }

    /** The checks of Run before it touches anything. */
    method Preflight(ghost job: Job) returns (blocked: Option<Failure>)
      requires disk.image.marker.None? ==> AtRest(job)
      modifies disk
      ensures Confined(old(disk.image), disk.image, {}) && (disk.image.marker.None? ==> AtRest(job))
      ensures blocked.None? ==> disk.image.marker.None?
      ensures blocked.Some? ==> blocked.value in {Io, AlreadyConfigured, InflightExists}
      ensures disk.calm ==> old(disk.calm) && disk.image == old(disk.image)
      ensures disk.calm ==>
                blocked == if installOnly && Path(configPath, Live) in disk.image.files then Some(AlreadyConfigured)
                           else if disk.image.marker.Some? then Some(InflightExists) else None
    {
      hide Recoverable;
      ghost var idle := disk.image.marker.None?;
      ghost var start := disk.image;
      InterferenceConfined(disk.writer, start, start);
      if installOnly {
        var found := disk.Stat(Path(configPath, Live));
        InterferenceConfined(disk.writer, start, disk.image);
        if idle { InterferenceKeeps(disk.writer, start, disk.image, job); }
        match found {
          case Present(_) => return Some(AlreadyConfigured);
          case Unreadable => return Some(Io);
          case Absent =>
        }
      }
      ghost var looked := disk.image;
      var read := disk.ReadPending();
      InterferenceConfined(disk.writer, looked, disk.image);
      ConfinedTrans(start, looked, disk.image, {}, {}, {});
      if idle { InterferenceKeeps(disk.writer, looked, disk.image, job); }
      match read {
        case Garbled => return Some(Io);
        case Read(marker) => return if marker.Some? then Some(InflightExists) else None;
      }
    }

    /** Steps 1 to 4 of Run: leftovers go, snapshots and candidates are put in place, and the inflight marker is set. */
    method Prepare(txnId: string, kind: Kind, config: Bytes, binary: Bytes, ghost job: Job)
      returns (pending: Option<Pending>)
      requires For(job) && AtRest(job) && kind == job.kind && Offers(job, config, binary)
      requires installOnly <==> job.config.installOnly
      modifies disk
      ensures disk.Safe(job) && !disk.image.decided && Untroubled(disk.image) && AllOld(disk.image, job)
      ensures pending.None? ==> disk.image.marker.None?
      ensures pending.Some? ==>
                && disk.image.marker == pending && pending.value.phase.Inflight? && Describes(pending.value, job)
                && Staged(disk.image, job)
      ensures disk.calm ==> old(disk.calm) && SameLive(old(disk.image), disk.image)
      ensures disk.calm ==>
                pending.Some? == !(installOnly && SwapsConfig(kind) && Path(configPath, Live) in old(disk.image).files)
    {
      hide Recoverable, Staged, AllOld;
      var leftovers: seq<Path> :=
        (if SwapsConfig(kind) then [Path(configPath, Staging), Path(configPath, Lkg)] else [])
        + (if SwapsBinary(kind) then [Path(binaryPath, Staging), Path(binaryPath, Lkg)] else []);
      var ok := ClearLeftovers(leftovers, job);
      IdleIsOld(disk.image, job);
      if !ok {
        return None;
      }
      var noPriorConfig, noPriorBinary;
      ok, noPriorConfig, noPriorBinary := SnapshotAll(job, kind);
      IdleIsOld(disk.image, job);
      if !ok {
        return None;
      }
      ok := StageAll(job, kind, config, binary);
      IdleIsOld(disk.image, job);
      if !ok {
        return None;
      }
      pending := Some(Pending(txnId, kind, Inflight, installOnly, noPriorConfig, noPriorBinary));
      ok := MarkInflight(pending.value, job, kind);
      if !ok {
        IdleIsOld(disk.image, job);
        return None;
      }
    }

    /** Run from its cleanup of leftovers on. */
    method RunAtRest(txnId: string, kind: Kind, config: Bytes, binary: Bytes, probe: bool, ghost job: Job)
      returns (error: Option<Failure>)
      requires For(job) && AtRest(job) && kind == job.kind && Offers(job, config, binary)
      requires installOnly <==> job.config.installOnly
      requires job.verdict == (if probe then None else Some(false)) && job.boot.None?
      modifies disk
      ensures disk.Safe(job) && Untroubled(disk.image) && disk.image.decided == error.None?
      ensures error.None? ==> probe && AllNew(disk.image, job)
      ensures error == Some(MarkerNotCommitted) ==> probe && Underway(disk.image) && AllNew(disk.image, job)
      ensures !probe ==> AllOld(disk.image, job)
      ensures error == Some(ProbeFailed) ==> !probe
      ensures error.Some? ==> error.value in {Io, ProbeFailed, MarkerNotCommitted}
      ensures disk.calm ==> old(disk.calm) && disk.image.marker.None?
      ensures disk.calm && (error.None? || error == Some(ProbeFailed)) ==> Tidy(disk.image, kind)
      ensures disk.calm && (installOnly ==> Path(configPath, Live) !in old(disk.image).files) ==>
                error == if probe then None else Some(ProbeFailed)
    {
      hide Recoverable, Staged, AllOld, AllNew, Untroubled, Describes;
      ghost var start := disk.image;
      var pending := Prepare(txnId, kind, config, binary, job);
      if pending.None? {
        return Some(Io);
      }
      if disk.calm { AbsentStays(start, disk.image, configPath); }
      if !probe {
        InFlight(disk.image, job);
        Abandon(job, kind);
        HistorySays(disk.image, job);
        return Some(ProbeFailed);
      }
      var ok := Swap(job, kind);
      if !ok {
        return Some(Io);
      }
      ok := Finish(pending.value, job, kind);
      if !ok {
        return Some(MarkerNotCommitted);
      }
      return None;
    }

    static lemma AbsentStays(a: Image, b: Image, base: string)
      requires SameLive(a, b)
      ensures Path(base, Live) in b.files <==> Path(base, Live) in a.files
    {
      assert At(b, Path(base, Live)) == At(a, Path(base, Live));
    }

    static lemma HistorySays(img: Image, job: Job)
      requires Recoverable(img, job) && job.verdict == Some(false) && job.boot.None?
      ensures !img.decided && Untroubled(img)
    {
    }

    // ---- Recovery ----

    /** A boot manager for the same configuration; it may know another binary, or none. */
    predicate BootsFor(job: Job) {
      ValidJob(job) && configPath == job.config.path && binaryPath != configPath && job.boot == Some(Known())
    }

    function Known(): set<string> { {configPath, binaryPath} }

    /** The live file is the same, unless there was none and another writer created it. */
    static predicate LiveSame(a: Image, b: Image, base: string) {
      var live := Path(base, Live);
      At(b, live) == At(a, live) || (live !in a.files && Foreign(b, live))
    }

    static lemma LiveSameTrans(a: Image, b: Image, c: Image, base: string)
      requires LiveSame(a, b, base) && LiveSame(b, c, base) && b.foreign <= c.foreign
      ensures LiveSame(a, c, base)
    {
    }

    static lemma ConfinedLive(a: Image, b: Image, paths: set<Path>, base: string)
      requires Confined(a, b, paths) && Siblings(paths)
      ensures LiveSame(a, b, base)
    {
    }

    static lemma LaterTrans(a: Image, b: Image, c: Image)
      requires LaterInodes(a, b) && LaterInodes(b, c)
      ensures LaterInodes(a, c)
    {
    }

    /** The history agrees, and every live file is the same unless another writer created it. */
    static ghost predicate LiveKept(a: Image, b: Image) {
      SameHistory(a, b) && LaterInodes(a, b) && forall base: string :: LiveSame(a, b, base)
    }

    static lemma LiveKeptTrans(a: Image, b: Image, c: Image)
      requires LiveKept(a, b) && LiveKept(b, c)
      ensures LiveKept(a, c)
    {
      LaterTrans(a, b, c);
      forall base: string ensures LiveSame(a, c, base) { LiveSameTrans(a, b, c, base); }
    }

    static lemma ConfinedKept(a: Image, b: Image, paths: set<Path>)
      requires Confined(a, b, paths) && Siblings(paths)
      ensures LiveKept(a, b)
    {
      forall base: string ensures LiveSame(a, b, base) { ConfinedLive(a, b, paths, base); }
    }

    static predicate NoSiblings(img: Image, base: string) {
      Path(base, Staging) !in img.files && Path(base, Lkg) !in img.files
    }

    /** cleanOrphans, when there is no marker. */
    method CleanOrphans(ghost job: Job)
      requires disk.Safe(job) && disk.image.marker.None?
      modifies disk
      ensures disk.Safe(job) && Confined(old(disk.image), disk.image, AllSiblings())
      ensures disk.calm ==> old(disk.calm)
      ensures disk.calm ==> (configPath != "" ==> NoSiblings(disk.image, configPath))
                              && (binaryPath != "" ==> NoSiblings(disk.image, binaryPath))
    {
      hide Recoverable;
      var candidates: seq<Path> :=
        (if configPath != "" then [Path(configPath, Staging), Path(configPath, Lkg)] else [])
        + (if binaryPath != "" then [Path(binaryPath, Staging), Path(binaryPath, Lkg)] else []);
      var i := 0;
      while i < |candidates|
        invariant 0 <= i <= |candidates| && disk.Safe(job) && Confined(old(disk.image), disk.image, AllSiblings())
        invariant disk.calm ==> old(disk.calm) && forall k | 0 <= k < i :: candidates[k] !in disk.image.files
      {
        ghost var start := disk.image;
        var found := Look(candidates[i], job);
        ghost var looked := disk.image;
        ConfinedTrans(old(disk.image), start, looked, AllSiblings(), {}, AllSiblings());
        if found.Present? {
          var _ := Discard(candidates[i], job);
          ConfinedTrans(old(disk.image), looked, disk.image, AllSiblings(), {candidates[i]}, AllSiblings());
        }
        i := i + 1;
      }
      ghost var last := |candidates| - 2;
      assert configPath != "" ==> candidates[0] == Path(configPath, Staging) && candidates[1] == Path(configPath, Lkg);
      assert binaryPath != "" ==>
          candidates[last] == Path(binaryPath, Staging) && candidates[last + 1] == Path(binaryPath, Lkg);
    }

    /** Recovery of a committed transaction: only the siblings and the marker go. */
    method CleanUp(p: Pending, ghost job: Job) returns (ok: bool)
      requires disk.Safe(job) && disk.image.marker == Some(p) && p.phase.Committed? && Describes(p, job)
      modifies disk
      ensures disk.Safe(job) && LiveKept(old(disk.image), disk.image)
      ensures ok ==> disk.image.marker.None?
      ensures disk.calm ==> old(disk.calm) && ok
      ensures disk.calm ==> Tidy(disk.image, p.kind)
    {
      hide Recoverable, LiveKept;
      ghost var start := disk.image;
      ConfinedKept(start, start, {});
      if SwapsConfig(p.kind) {
        DiscardSwept(Path(configPath, Lkg), start, job);
        DiscardSwept(Path(configPath, Staging), start, job);
      }
      if SwapsBinary(p.kind) {
        DiscardSwept(Path(binaryPath, Lkg), start, job);
        DiscardSwept(Path(binaryPath, Staging), start, job);
      }
      ghost var swept := disk.image;
      ok := DropMarker(job);
      DroppedKept(swept, disk.image);
      LiveKeptTrans(start, swept, disk.image);
    }

    static lemma DroppedKept(a: Image, b: Image)
      requires SameHistory(a, b) && LaterInodes(a, b)
      requires forall p :: At(b, p) == At(a, p) || (p !in a.files && Foreign(b, p))
      ensures LiveKept(a, b)
    {
    }

    method DiscardSwept(path: Path, ghost start: Image, ghost job: Job)
      requires disk.Safe(job) && !Underway(disk.image) && path.role != Live && LiveKept(start, disk.image)
      modifies disk
      ensures disk.Safe(job) && LiveKept(start, disk.image) && disk.image.marker == old(disk.image).marker
      ensures disk.calm ==> old(disk.calm)
      ensures disk.calm ==> disk.image.files == old(disk.image).files - {path}
    {
      hide Recoverable, LiveKept;
      ghost var before := disk.image;
      var _ := Discard(path, job);
      ConfinedKept(before, disk.image, {path});
      LiveKeptTrans(start, before, disk.image);
    }

    /** The state moves on without a decision, and only the history of this live file may show it as passed over. */
    static predicate Steps(a: Image, b: Image, base: string) {
      && b.marker == a.marker && b.decided == a.decided && b.served == a.served && LaterInodes(a, b)
      && (b.passed == a.passed || b.passed == a.passed + {base})
      && (base in b.passed && base !in a.passed ==> LiveSame(a, b, base))
    }

    /** Restores one live file; an unreadable snapshot or an undeletable live file is passed over. */
    method RollbackOne(path: string, noPrior: bool, ghost job: Job) returns (ok: bool)
      requires ValidJob(job) && disk.Safe(job) && Underway(disk.image) && Rollable(job, path, noPrior)
      requires job.boot.Some? && path in job.boot.value
      modifies disk
      ensures disk.Safe(job) && Steps(old(disk.image), disk.image, path)
      ensures forall q: Path :: q.base != path ==> At(disk.image, q) == At(old(disk.image), q)
      ensures disk.image.foreign == {}
      ensures ok && path !in disk.image.passed ==> OldAt(disk.image, job, path)
      ensures disk.calm ==> old(disk.calm) && ok && disk.image.passed == old(disk.image).passed
      ensures disk.calm ==>
                Path(path, Staging) !in disk.image.files && (!noPrior ==> Path(path, Lkg) !in disk.image.files)
    {
      hide Recoverable;
      NoWriterNoForeign(disk.image, job);
      if noPrior {
        SpareStaging(disk.image, job, path, noPrior);
        var _ := Discard(Path(path, Staging), job);
        ConfinedExactly(old(disk.image), disk.image, {Path(path, Staging)}, job);
        RemoveLive(path, job);
        return true;
      }
      var found := Look(Path(path, Lkg), job);
      ConfinedExactly(old(disk.image), disk.image, {}, job);
      if found.Present? {
        ok := Restore(path, job);
        if !ok {
          return;
        }
      } else if found.Unreadable? {
        PassedOverKeeps(disk.image, job, path);
        disk.NotePassedOver(path);
      } else {
        MissingSnapshot(disk.image, job, path);
      }
      ghost var restored := disk.image;
      SpareStaging(restored, job, path, noPrior);
      var _ := Discard(Path(path, Staging), job);
      ConfinedExactly(restored, disk.image, {Path(path, Staging)}, job);
      OldAtStays(restored, disk.image, {Path(path, Staging)}, job, path);
      ok := true;
    }

    static lemma SpareStaging(img: Image, job: Job, path: string, noPrior: bool)
      requires ValidJob(job) && Rollable(job, path, noPrior)
      ensures Spare(img, job, Path(path, Staging))
    {
    }

    static lemma OldAtStays(a: Image, b: Image, paths: set<Path>, job: Job, path: string)
      requires Confined(a, b, paths) && Siblings(paths)
      ensures OldAt(a, job, path) ==> OldAt(b, job, path)
    {
      if IsOld(a, job.config) { OldStays(a, b, paths, job.config); }
      if IsOld(a, job.binary) { OldStays(a, b, paths, job.binary); }
    }

    /** Without another writer nothing but the named paths changes. */
    static lemma ConfinedExactly(a: Image, b: Image, paths: set<Path>, job: Job)
      requires Confined(a, b, paths) && Recoverable(b, job) && !job.config.installOnly
      ensures b.foreign == {} == a.foreign && forall p | p !in paths :: At(b, p) == At(a, p)
    {
    }

    method Restore(path: string, ghost job: Job) returns (ok: bool)
      requires ValidJob(job) && disk.Safe(job) && Underway(disk.image) && Rollable(job, path, false)
      modifies disk
      ensures disk.Safe(job) && disk.image.marker == old(disk.image).marker && SameHistory(old(disk.image), disk.image)
      ensures LaterInodes(old(disk.image), disk.image) && disk.image.foreign == {}
      ensures forall q: Path :: q.base != path ==> At(disk.image, q) == At(old(disk.image), q)
      ensures ok ==> OldAt(disk.image, job, path)
      ensures disk.calm && Path(path, Lkg) in old(disk.image).files ==> ok
      ensures disk.calm ==> old(disk.calm)
      ensures ok ==> Path(path, Lkg) !in disk.image.files
    {
      hide Recoverable;
      ghost var before;
      ok, before := disk.Rename(Path(path, Lkg), Path(path, Live));
      InterferenceKeeps(disk.writer, old(disk.image), before, job);
      NoWriterNoForeign(before, job);
      if ok {
        RestoreKeeps(before, job, path);
      }
    }

    method RemoveLive(path: string, ghost job: Job)
      requires ValidJob(job) && disk.Safe(job) && Underway(disk.image) && Rollable(job, path, true)
      requires job.boot.Some? && path in job.boot.value
      modifies disk
      ensures disk.Safe(job) && Steps(old(disk.image), disk.image, path)
      ensures forall q: Path :: q.base != path ==> At(disk.image, q) == At(old(disk.image), q)
      ensures disk.image.foreign == {}
      ensures path !in disk.image.passed ==> OldAt(disk.image, job, path)
      ensures disk.calm ==> old(disk.calm) && disk.image.passed == old(disk.image).passed
      ensures disk.calm ==> forall q: Path :: q.role != Live ==> At(disk.image, q) == At(old(disk.image), q)
    {
      hide Recoverable;
      ghost var before;
      var outcome;
      outcome, before := disk.Remove(Path(path, Live));
      InterferenceKeeps(disk.writer, old(disk.image), before, job);
      NoWriterNoForeign(before, job);
      match outcome {
        case Done => RemovedLiveKeeps(before, job, path);
        case Missing =>
        case Refused =>
          PassedOverKeeps(disk.image, job, path);
          disk.NotePassedOver(path);
      }
    }

    static lemma MissingSnapshot(img: Image, job: Job, path: string)
      requires ValidJob(job) && Recoverable(img, job) && Underway(img) && Rollable(job, path, false)
      requires Path(path, Lkg) !in img.files
      ensures path !in img.passed ==> OldAt(img, job, path)
    {
    }

    /** Recovery of a first configuration: our link is removed, another writer's file is not. */
    method UndoInstall(ghost job: Job)
      requires BootsFor(job) && disk.Safe(job) && Underway(disk.image) && job.config.installOnly
      requires SwapsConfig(job.kind) && job.config.prior.None?
      modifies disk
      ensures disk.Safe(job) && Steps(old(disk.image), disk.image, configPath)
      ensures configPath !in disk.image.passed ==> IsOld(disk.image, job.config)
      ensures disk.calm ==> old(disk.calm) && disk.image.passed == old(disk.image).passed
      ensures disk.calm ==> Path(configPath, Staging) !in disk.image.files
    {
      hide Recoverable, SameLive;
      ghost var start := disk.image;
      RemoveOurs(job);
      ghost var undone := disk.image;
      var _ := Discard(Path(configPath, Staging), job);
      LaterTrans(start, undone, disk.image);
      ConfinedLive(undone, disk.image, {Path(configPath, Staging)}, configPath);
      if LiveSame(start, undone, configPath) { LiveSameTrans(start, undone, disk.image, configPath); }
      if IsOld(undone, job.config) { OldStays(undone, disk.image, {Path(configPath, Staging)}, job.config); }
    }

    /** The live configuration goes if it is the staged one by inode. */
    method RemoveOurs(ghost job: Job)
      requires BootsFor(job) && disk.Safe(job) && Underway(disk.image) && job.config.installOnly
      requires SwapsConfig(job.kind) && job.config.prior.None?
      modifies disk
      ensures disk.Safe(job) && Steps(old(disk.image), disk.image, configPath)
      ensures configPath !in disk.image.passed ==> IsOld(disk.image, job.config)
      ensures disk.calm ==> old(disk.calm) && disk.image.passed == old(disk.image).passed
    {
      hide Recoverable, SameLive;
      ghost var start := disk.image;
      var staged := Look(Path(configPath, Staging), job);
      ghost var first := disk.image;
      var live := Look(Path(configPath, Live), job);
      ghost var looked := disk.image;
      ConfinedTrans(start, first, looked, {}, {}, {});
      ConfinedLive(start, looked, {}, configPath);
      assert At(looked, Path(configPath, Staging)) == At(first, Path(configPath, Staging));
      if staged.Present? && live.Present? && staged.file.inode == live.file.inode {
        SameInode(looked, job);
        Withdraw(job);
      } else if staged.Unreadable? || live.Unreadable? {
        PassedOverKeeps(disk.image, job, configPath);
        disk.NotePassedOver(configPath);
      } else {
        NotOurs(looked, job);
      }
      LaterTrans(start, looked, disk.image);
    }

    /** Removes the live configuration once it is known to be our own link. */
    method Withdraw(ghost job: Job)
      requires BootsFor(job) && disk.Safe(job) && Underway(disk.image) && job.config.installOnly
      requires SwapsConfig(job.kind) && job.config.prior.None?
      requires Path(configPath, Live) in disk.image.files && !Foreign(disk.image, Path(configPath, Live))
      modifies disk
      ensures disk.Safe(job) && Steps(old(disk.image), disk.image, configPath)
      ensures configPath !in disk.image.passed ==> IsOld(disk.image, job.config)
      ensures disk.calm ==> old(disk.calm) && disk.image.passed == old(disk.image).passed
    {
      hide Recoverable;
      ghost var before;
      var outcome;
      outcome, before := disk.Remove(Path(configPath, Live));
      InterferenceKeeps(disk.writer, old(disk.image), before, job);
      match outcome {
        case Done => WithdrawnKeeps(before, job);
        case Missing =>
        case Refused =>
          PassedOverKeeps(disk.image, job, configPath);
          disk.NotePassedOver(configPath);
      }
    }

    /** Our staged inode is never another writer's. */
    static lemma SameInode(img: Image, job: Job)
      requires Recoverable(img, job)
      ensures var staging, live := Path(job.config.path, Staging), Path(job.config.path, Live);
        staging in img.files && live in img.files && img.files[staging].inode == img.files[live].inode
        ==> !Foreign(img, live)
    {
    }

    static lemma NotOurs(img: Image, job: Job)
      requires ValidJob(job) && Recoverable(img, job) && job.config.installOnly && Underway(img)
      requires var staging, live := Path(job.config.path, Staging), Path(job.config.path, Live);
        staging in img.files && live in img.files ==> img.files[staging].inode != img.files[live].inode
      ensures job.config.path !in img.passed ==> IsOld(img, job.config)
    {
    }

    /** Removes the marker of a rolled-back transaction. */
    method DropAfterRollback(ghost job: Job) returns (ok: bool)
      requires BootsFor(job) && disk.Safe(job) && Underway(disk.image)
      requires SwapsConfig(job.kind) && configPath !in disk.image.passed ==> IsOld(disk.image, job.config)
      requires SwapsBinary(job.kind) && binaryPath !in disk.image.passed ==> OldAt(disk.image, job, binaryPath)
      modifies disk
      ensures disk.Safe(job) && disk.image.decided == old(disk.image).decided
      ensures disk.image.passed == old(disk.image).passed && LaterInodes(old(disk.image), disk.image)
      ensures forall base: string :: LiveSame(old(disk.image), disk.image, base)
      ensures ok ==> disk.image.marker.None? && disk.image.served == Some(Known())
      ensures disk.calm ==> old(disk.calm) && ok
      ensures disk.calm ==> disk.image.files == old(disk.image).files
    {
      hide Recoverable;
      ghost var before;
      ok, before := disk.RemovePending(Some(Known()));
      InterferenceKeeps(disk.writer, old(disk.image), before, job);
      InterferenceConfined(disk.writer, old(disk.image), before);
      ConfinedKept(old(disk.image), before, {});
      OldAtStays(old(disk.image), before, {}, job, binaryPath);
      OldAtStays(old(disk.image), before, {}, job, configPath);
      RestsAfterRollback(before, job);
      UnmarkedKeeps(before, job, Some(Known()));
    }

    lemma RestsAfterRollback(img: Image, job: Job)
      requires BootsFor(job) && Recoverable(img, job) && Underway(img)
      requires SwapsConfig(job.kind) && configPath !in img.passed ==> IsOld(img, job.config)
      requires SwapsBinary(job.kind) && binaryPath !in img.passed ==> OldAt(img, job, binaryPath)
      ensures SwapsConfig(job.kind) ==> Rests(Unmarked(img, Some(Known())), job.config)
      ensures SwapsBinary(job.kind) ==> Rests(Unmarked(img, Some(Known())), job.binary)
    {
      HeldIsOldOrNew(img, job);
    }

    static lemma HeldIsOldOrNew(img: Image, job: Job)
      requires Recoverable(img, job) && Underway(img)
      ensures SwapsConfig(job.kind) ==> IsOld(img, job.config) || IsNew(img, job.config)
      ensures SwapsBinary(job.kind) ==> IsOld(img, job.binary) || IsNew(img, job.binary)
    {
    }

    /** The swapped side a recovery left alone still has the live file it had. */
    static predicate LeftAlone(a: Image, b: Image, job: Job) {
      && (SwapsConfig(job.kind) && Left(b, job.config) ==> LiveSame(a, b, job.config.path))
      && (SwapsBinary(job.kind) && Left(b, job.binary) ==> LiveSame(a, b, job.binary.path))
    }

    /** The configuration's part of a rollback. */
    method RollBackConfig(p: Pending, ghost job: Job) returns (ok: bool)
      requires BootsFor(job) && disk.Safe(job) && disk.image.marker == Some(p) && p.phase.Inflight? && Describes(p, job)
      requires SwapsConfig(p.kind)
      modifies disk
      ensures disk.Safe(job) && Steps(old(disk.image), disk.image, configPath)
      ensures ok && configPath !in disk.image.passed ==> IsOld(disk.image, job.config)
      ensures !p.installOnly ==> forall q: Path :: q.base != configPath ==> At(disk.image, q) == At(old(disk.image), q)
      ensures disk.calm ==> old(disk.calm) && ok && disk.image.passed == old(disk.image).passed
      ensures disk.calm ==> Path(configPath, Staging) !in disk.image.files
    {
      hide Recoverable, Steps, IsOld;
      if p.installOnly {
        UndoInstall(job);
        return true;
      }
      ok := RollbackOne(configPath, p.noPriorConfig, job);
    }

    /** Both sides of a rollback. */
    method RollBackSides(p: Pending, ghost job: Job) returns (ok: bool)
      requires BootsFor(job) && disk.Safe(job) && disk.image.marker == Some(p) && p.phase.Inflight? && Describes(p, job)
      modifies disk
      ensures disk.Safe(job) && disk.image.marker == Some(p) && SameFate(old(disk.image), disk.image)
      ensures LaterInodes(old(disk.image), disk.image)
      ensures old(disk.image).passed <= disk.image.passed <= old(disk.image).passed + Known()
      ensures ok && SwapsConfig(job.kind) && configPath !in disk.image.passed ==> IsOld(disk.image, job.config)
      ensures ok && SwapsBinary(job.kind) && binaryPath !in disk.image.passed ==> OldAt(disk.image, job, binaryPath)
      ensures ok && SwapsConfig(job.kind) && configPath in disk.image.passed && old(disk.image).passed == {} ==>
                LiveSame(old(disk.image), disk.image, configPath)
      ensures ok && SwapsBinary(job.kind) && binaryPath in disk.image.passed && old(disk.image).passed == {} ==>
                LiveSame(old(disk.image), disk.image, binaryPath)
      ensures ok && binaryPath != job.binary.path && SwapsBinary(job.kind) ==>
                LiveSame(old(disk.image), disk.image, job.binary.path)
      ensures disk.calm ==> old(disk.calm) && ok && disk.image.passed == old(disk.image).passed
      ensures disk.calm ==> CandidatesGone(disk.image, p.kind)
    {
      hide Recoverable, IsOld;
      ghost var start := disk.image;
      ok := true;
      if SwapsConfig(p.kind) {
        ok := RollBackConfig(p, job);
        if !ok {
          return;
        }
      }
      ghost var first := disk.image;
      if SwapsBinary(p.kind) {
        ok := RollbackOne(binaryPath, p.noPriorBinary, job);
        LaterTrans(start, first, disk.image);
        if !ok {
          return;
        }
        OtherSideStays(first, disk.image, binaryPath, job.config);
      }
    }

    static predicate SameFate(a: Image, b: Image) { b.decided == a.decided && b.served == a.served }

    /** Recovery of an inflight transaction. */
    method RollBack(p: Pending, ghost job: Job) returns (ok: bool)
      requires BootsFor(job) && disk.Safe(job) && disk.image.marker == Some(p) && p.phase.Inflight? && Describes(p, job)
      modifies disk
      ensures disk.Safe(job) && disk.image.decided == old(disk.image).decided
      ensures old(disk.image).passed <= disk.image.passed <= old(disk.image).passed + Known()
      ensures LaterInodes(old(disk.image), disk.image)
      ensures ok ==> disk.image.marker.None? && disk.image.served == Some(Known())
      ensures ok && old(disk.image).passed == {} ==> LeftAlone(old(disk.image), disk.image, job)
      ensures ok && binaryPath != job.binary.path && SwapsBinary(job.kind) ==>
                LiveSame(old(disk.image), disk.image, job.binary.path)
      ensures disk.calm ==> old(disk.calm) && ok && disk.image.passed == old(disk.image).passed
      ensures disk.calm ==> CandidatesGone(disk.image, p.kind)
    {
      hide Recoverable, IsOld, OldAt, LiveSame, Describes;
      ghost var start := disk.image;
      ok := RollBackSides(p, job);
      if !ok {
        return;
      }
      ghost var restored := disk.image;
      ok := DropAfterRollback(job);
      LaterTrans(start, restored, disk.image);
      if LiveSame(start, restored, job.config.path) { LiveSameTrans(start, restored, disk.image, job.config.path); }
      if LiveSame(start, restored, job.binary.path) { LiveSameTrans(start, restored, disk.image, job.binary.path); }
    }

    static lemma OtherSideStays(a: Image, b: Image, base: string, side: Side)
      requires (forall p: Path :: p.base != base ==> At(b, p) == At(a, p)) && a.foreign <= b.foreign
      requires side.path != base
      ensures IsOld(a, side) ==> IsOld(b, side)
    {
      assert At(b, Path(side.path, Live)) == At(a, Path(side.path, Live));
    }

    /** Every side recovery left alone had not been swapped. */
    static predicate LeftWereOld(a: Image, b: Image, job: Job) {
      && (SwapsConfig(job.kind) && Left(b, job.config) ==> IsOld(a, job.config))
      && (SwapsBinary(job.kind) && Left(b, job.binary) ==> IsOld(a, job.binary))
    }

    static lemma OldIff(a: Image, b: Image, job: Job, side: Side)
      requires Sound(a, job) && LaterInodes(a, b) && LiveSame(a, b, side.path) && Swaps(job, side)
      requires IsOld(a, side) || IsNew(a, side)
      requires side.prior.Some? ==> Path(side.path, Live) in a.files
      ensures IsOld(a, side) <==> IsOld(b, side)
    {
    }

    static lemma SettlesIff(a: Image, b: Image, job: Job)
      requires ValidJob(job) && Recoverable(a, job) && Underway(a) && Recoverable(b, job)
      requires b.marker.None? && !b.decided && LaterInodes(a, b) && LeftAlone(a, b, job)
      ensures Settled(b, job) <==> LeftWereOld(a, b, job)
    {
      hide IsOld, IsNew, Sound, LiveSame, LaterInodes;
      HeldIsOldOrNew(a, job);
      if SwapsConfig(job.kind) && Left(b, job.config) {
        if job.config.prior.Some? { LivePresent(a, job, job.config); }
        OldIff(a, b, job, job.config);
      }
      if SwapsBinary(job.kind) && Left(b, job.binary) {
        if job.binary.prior.Some? { LivePresent(a, job, job.binary); }
        OldIff(a, b, job, job.binary);
      }
    }

    static lemma LivePresent(img: Image, job: Job, side: Side)
      requires Recoverable(img, job) && Underway(img) && Swaps(job, side) && side.prior.Some?
      ensures Path(side.path, Live) in img.files
    {
    }

    /**
     * RecoverOnBoot; false when it returns an error.  A completed rollback settles the transaction exactly when every
     * swapped live file it left alone had not been swapped, and it leaves alone those that an error kept it from
     * restoring and those its paths do not name.
     */
    method RecoverOnBoot(ghost job: Job) returns (ok: bool)
      requires BootsFor(job) && disk.Safe(job)
      modifies disk
      ensures disk.Safe(job) && disk.image.decided == old(disk.image).decided
      ensures old(disk.image).passed <= disk.image.passed <= old(disk.image).passed + Known()
      ensures ok ==> disk.image.marker.None?
      ensures ok && disk.image.decided ==> Settled(disk.image, job)
      ensures ok && Underway(old(disk.image)) ==> disk.image.served == Some(Known())
      ensures ok && Underway(old(disk.image)) && old(disk.image).passed == {} ==>
                && LeftAlone(old(disk.image), disk.image, job)
                && (Settled(disk.image, job) <==> LeftWereOld(old(disk.image), disk.image, job))
      ensures ok && Underway(old(disk.image)) && binaryPath != job.binary.path && SwapsBinary(job.kind) ==>
                LiveSame(old(disk.image), disk.image, job.binary.path)
      ensures !Underway(old(disk.image)) ==> LiveKept(old(disk.image), disk.image)
      ensures disk.calm ==> old(disk.calm) && ok && disk.image.passed == old(disk.image).passed
      ensures disk.calm && old(disk.image).marker.None? ==>
                (configPath != "" ==> NoSiblings(disk.image, configPath))
                && (binaryPath != "" ==> NoSiblings(disk.image, binaryPath))
      ensures disk.calm && old(disk.image).marker.Some? && !Underway(old(disk.image)) ==> Tidy(disk.image, job.kind)
      ensures disk.calm && Underway(old(disk.image)) ==> CandidatesGone(disk.image, job.kind)
    {
      hide Recoverable, LiveKept, LeftAlone, LeftWereOld, Settled;
      ghost var start := disk.image;
      var read := disk.ReadPending();
      ghost var reading := disk.image;
      InterferenceKeeps(disk.writer, start, reading, job);
      InterferenceConfined(disk.writer, start, reading);
      ConfinedKept(start, reading, {});
      KeptHistory(start, reading);
      if read.Garbled? {
        return false;
      }
      if read.marker.None? {
        CleanOrphans(job);
        ConfinedKept(reading, disk.image, AllSiblings());
        LiveKeptTrans(start, reading, disk.image);
        ok := true;
      } else {
        MarkerDescribes(reading, job);
        match read.marker.value.phase {
          case Committed =>
            ok := CleanUp(read.marker.value, job);
            LiveKeptTrans(start, reading, disk.image);
          case Inflight =>
            ok := RollBack(read.marker.value, job);
            if ok { Concluded(start, reading, disk.image, job, binaryPath); }
          case UnknownPhase => ok := false;
        }
      }
      if !Underway(start) { KeptHistory(start, disk.image); }
      if ok && disk.image.decided { DecidedSettles(disk.image, job); }
    }

    static lemma KeptHistory(a: Image, b: Image)
      requires LiveKept(a, b)
      ensures SameHistory(a, b) && LaterInodes(a, b)
    {
    }

    /** From the state before the marker was read to the one after a completed rollback. */
    static lemma Concluded(start: Image, reading: Image, done: Image, job: Job, binaryPath: string)
      requires ValidJob(job) && Recoverable(start, job) && Underway(start) && Recoverable(done, job)
      requires LiveKept(start, reading) && LaterInodes(reading, done)
      requires done.marker.None? && done.decided == start.decided
      ensures start.passed == {} && LeftAlone(reading, done, job) ==>
                LeftAlone(start, done, job) && (Settled(done, job) <==> LeftWereOld(start, done, job))
      ensures LiveSame(reading, done, job.binary.path) ==> LiveSame(start, done, job.binary.path)
    {
      hide Settled, LeftWereOld, Sound;
      InFlight(start, job);
      LaterTrans(start, reading, done);
      if LiveSame(reading, done, job.config.path) { LiveSameTrans(start, reading, done, job.config.path); }
      if LiveSame(reading, done, job.binary.path) { LiveSameTrans(start, reading, done, job.binary.path); }
      if LeftAlone(reading, done, job) { SettlesIff(start, done, job); }
    }

    static lemma MarkerDescribes(img: Image, job: Job)
      requires Recoverable(img, job) && img.marker.Some?
      ensures Describes(img.marker.value, job)
    {
    }

    static lemma DecidedSettles(img: Image, job: Job)
      requires Recoverable(img, job) && img.marker.None? && img.decided
      ensures Settled(img, job)
    {
    }
  }
}
