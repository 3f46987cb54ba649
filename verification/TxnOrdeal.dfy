/** Whole histories: a run, a crash anywhere in it, any number of crashed recoveries, and one that completes. */
module TxnOrdeal {
  import opened Wrappers
  import opened TxnImage
  import opened TxnDisk
  import opened TxnManager

  /** From now on the decision may not change, and this is who recovers. */
  function Decided(job: Job, img: Image, boot: Manager): Job {
    job.(verdict := Some(img.decided), boot := Some(boot.Known()))
  }

  lemma DecidedSafe(img: Image, job: Job, boot: Manager)
    requires Recoverable(img, job) && job.boot.None?
    ensures Recoverable(img, Decided(job, img, boot))
  {
  }

  /** All new as decided; otherwise every swapped file is old, but a file no recovery restored may be the candidate. */
  predicate Concluded(img: Image, job: Job, known: set<string>) {
    && img.marker.None? && OthersKept(img, job)
    && if img.decided then AllNew(img, job)
       else (SwapsConfig(job.kind) ==> RestsBut(img, job.config, known))
            && (SwapsBinary(job.kind) ==> RestsBut(img, job.binary, known))
  }

  predicate RestsBut(img: Image, side: Side, known: set<string>) {
    IsOld(img, side) || (IsNew(img, side) && (side.path in img.passed || side.path !in known))
  }

  /** A run, ended by a reboot or cut short by a crash anywhere in it. */
  method RunAndStop(disk: Disk, run: Manager, txnId: string, kind: Kind, config: Bytes, binary: Bytes,
                    probe: Option<bool>, interrupted: bool, ghost job: Job)
    returns (committed: bool, error: Option<Failure>)
    requires run.disk == disk && disk.trace == [disk.image] && disk.image.marker.None?
    requires run.configPath != run.binaryPath && Manager.Pristine(disk.image)
    requires run.ValidKind(kind, config, binary) && (run.installOnly ==> kind.ConfigKind?)
    requires disk.writer.Some? ==> run.installOnly && disk.writer.value == run.configPath
    requires job == run.JobOf(disk.image, kind, config, binary, probe)
    modifies disk
    ensures disk.Safe(job) && disk.trace == [disk.image] && disk.image.passed == {}
    ensures !interrupted ==> disk.image.decided == (committed && error.None?)
    ensures probe != Some(true) ==> !disk.image.decided && !committed
    ensures (disk.calm && !interrupted && probe == Some(true)
             && (run.installOnly ==> Path(run.configPath, Live) !in old(disk.image).files)) ==> disk.image.decided
  {
    hide Recoverable, AllNew, AllOld, Confined, Manager.Pristine;
    committed, error := run.Run(txnId, kind, config, binary, probe, job);
    if interrupted {
      disk.Crash();
    } else {
      disk.Reboot();
    }
    if probe != Some(true) { VerdictHolds(disk.image, job); }
    UntroubledSoFar(disk.image, job);
  }

  /**
   * The files swapped by a run end up all new exactly when the committed marker was written and otherwise old, however
   * the run and the recoveries after it were interrupted, except that a swapped file stays the candidate where every
   * recovery failed to restore it and went on, or did not know its path.  Another writer's first configuration is
   * never removed or replaced, a candidate the probe refused is never decided, and without a failing operation an
   * accepted one goes live.
   */
  method Ordeal(disk: Disk, run: Manager, boot: Manager, txnId: string, kind: Kind, config: Bytes, binary: Bytes,
                probe: Option<bool>, interrupted: bool, crashes: nat, ghost job: Job)
    returns (committed: bool, error: Option<Failure>, recovered: bool)
    requires run.disk == disk == boot.disk && disk.trace == [disk.image] && disk.image.marker.None?
    requires run.configPath != run.binaryPath && Manager.Pristine(disk.image)
    requires run.ValidKind(kind, config, binary) && (run.installOnly ==> kind.ConfigKind?)
    requires disk.writer.Some? ==> run.installOnly && disk.writer.value == run.configPath
    requires job == run.JobOf(disk.image, kind, config, binary, probe)
    requires boot.configPath == run.configPath != boot.binaryPath
    modifies disk
    ensures recovered ==> Concluded(disk.image, job, boot.Known())
    ensures recovered && disk.image.passed == {} && (SwapsBinary(kind) ==> boot.binaryPath == run.binaryPath) ==>
              Settled(disk.image, job)
    ensures disk.image.passed <= boot.Known() && !disk.image.trampled
    ensures !interrupted ==> disk.image.decided == (committed && error.None?)
    ensures probe != Some(true) ==> !disk.image.decided && !committed
    ensures disk.calm ==> recovered && (crashes == 0 ==> disk.image.passed == {})
    ensures (disk.calm && !interrupted && probe == Some(true)
             && (run.installOnly ==> Path(run.configPath, Live) !in old(disk.image).files)) ==>
              disk.image.decided && AllNew(disk.image, job)
  {
    hide Recoverable, Settled, Concluded, AllNew, Manager.Pristine;
    committed, error := RunAndStop(disk, run, txnId, kind, config, binary, probe, interrupted, job);
    ghost var fixed := Decided(job, disk.image, boot);
    DecidedSafe(disk.image, job, boot);
    recovered := Recoveries(disk, boot, crashes, fixed);
    Unharmed(disk.image, fixed);
    if recovered {
      Conclusion(disk.image, job, fixed);
      if disk.image.decided { ConcludedNew(disk.image, job, boot.Known()); }
    }
  }

  /** Any number of recoveries cut short by a crash, and one that is not. */
  method Recoveries(disk: Disk, boot: Manager, crashes: nat, ghost job: Job) returns (recovered: bool)
    requires boot.disk == disk && boot.BootsFor(job) && disk.Safe(job) && job.verdict == Some(disk.image.decided)
    modifies disk
    ensures disk.Safe(job) && disk.image.decided == old(disk.image).decided
    ensures recovered ==> disk.image.marker.None?
    ensures disk.calm ==> old(disk.calm) && recovered
    ensures disk.calm && crashes == 0 ==> disk.image.passed == old(disk.image).passed
  {
    hide Recoverable, Settled;
    var i := 0;
    while i < crashes
      invariant 0 <= i <= crashes && disk.Safe(job) && disk.image.decided == old(disk.image).decided
      invariant (disk.calm ==> old(disk.calm)) && (i == 0 ==> disk.image == old(disk.image))
    {
      var _ := boot.RecoverOnBoot(job);
      disk.Crash();
      VerdictHolds(disk.image, job);
      i := i + 1;
    }
    recovered := boot.RecoverOnBoot(job);
  }

  lemma VerdictHolds(img: Image, job: Job)
    requires Recoverable(img, job) && job.verdict.Some?
    ensures img.decided == job.verdict.value
  {
  }

  lemma UntroubledSoFar(img: Image, job: Job)
    requires Recoverable(img, job) && job.boot.None?
    ensures img.passed == {}
  {
  }

  lemma ConcludedNew(img: Image, job: Job, known: set<string>)
    requires Concluded(img, job, known) && img.decided
    ensures AllNew(img, job)
  {
  }

  lemma Unharmed(img: Image, job: Job)
    requires Recoverable(img, job) && job.boot.Some?
    ensures !img.trampled && img.passed <= job.boot.value
  {
  }

  lemma Conclusion(img: Image, job: Job, fixed: Job)
    requires Recoverable(img, fixed) && img.marker.None?
    requires fixed.boot.Some? && fixed == job.(verdict := fixed.verdict, boot := fixed.boot)
    ensures Concluded(img, job, fixed.boot.value)
    ensures (img.passed == {} && job.config.path in fixed.boot.value
             && (SwapsBinary(job.kind) ==> job.binary.path in fixed.boot.value)) ==> Settled(img, job)
  {
  }

  // ---- Where recovery falls short ----

  /**
   * A boot manager that knows another binary, or none, leaves the swapped binary as it is.  When it completes without
   * passing over an error, the transaction is settled exactly when the binary had not been swapped.
   */
  method BootWithoutBinary(boot: Manager, ghost job: Job) returns (ok: bool)
    requires boot.BootsFor(job) && boot.disk.Safe(job) && Underway(boot.disk.image) && boot.disk.image.passed == {}
    requires boot.binaryPath != job.binary.path
    modifies boot.disk
    ensures boot.disk.Safe(job) && !boot.disk.image.decided && (ok ==> boot.disk.image.marker.None?)
    ensures ok && SwapsBinary(job.kind) ==>
              Manager.LiveSame(old(boot.disk.image), boot.disk.image, job.binary.path)
    ensures ok && boot.disk.image.passed == {} ==>
              (Settled(boot.disk.image, job) <==> !SwapsBinary(job.kind) || IsOld(old(boot.disk.image), job.binary))
  {
    hide Recoverable, Settled, IsOld, Manager.LiveSame;
    ghost var start := boot.disk.image;
    Manager.InFlight(start, job);
    ok := boot.RecoverOnBoot(job);
    if ok && boot.disk.image.passed == {} { OnlyBinaryLeft(start, boot.disk.image, job); }
  }

  /** With nothing passed over, the only file recovery can leave is a binary it does not know. */
  lemma OnlyBinaryLeft(a: Image, b: Image, job: Job)
    requires b.passed == {} && b.served.Some? && job.config.path in b.served.value && job.binary.path !in b.served.value
    ensures Manager.LeftWereOld(a, b, job) <==> !SwapsBinary(job.kind) || IsOld(a, job.binary)
  {
  }

  const SWAPPED := Job(
    BinaryKind, Side("/etc/c.yaml", None, [], false), Side("/usr/bin/g", Some([1]), [2], false), None,
    Some({"/etc/c.yaml", ""}))

  /** A crash between the binary's rename and the committed marker. */
  const AFTER_RENAME := Image(
    map[Path("/usr/bin/g", Live) := File(1, [2]), Path("/usr/bin/g", Lkg) := File(0, [1])],
    Some(Pending("t", BinaryKind, Inflight, false, false, false)), 2, {}, false, false, {}, None)

  lemma AfterRename()
    ensures ValidJob(SWAPPED) && Recoverable(AFTER_RENAME, SWAPPED) && Underway(AFTER_RENAME)
    ensures IsNew(AFTER_RENAME, SWAPPED.binary) && !IsOld(AFTER_RENAME, SWAPPED.binary)
  {
    assert IsNew(AFTER_RENAME, SWAPPED.binary) && !IsOld(AFTER_RENAME, SWAPPED.binary);
    assert Recoverable(AFTER_RENAME, SWAPPED);
  }

  /**
   * Recovering that crash with the manager the boot path builds, which has no binary path: whenever it completes
   * without an error, the undecided candidate is still live.
   */
  method SwappedBinaryStays() returns (ok: bool, img: Image)
    ensures ok ==> img.marker.None? && !img.decided && IsNew(img, SWAPPED.binary) && !Settled(img, SWAPPED)
  {
    hide Recoverable, Settled;
    AfterRename();
    var disk := new Disk(AFTER_RENAME, None);
    var boot := new Manager("/etc/c.yaml", "", false, disk);
    ok := BootWithoutBinary(boot, SWAPPED);
    img := disk.image;
    if ok { StillNew(AFTER_RENAME, img, SWAPPED); }
  }

  lemma StillNew(a: Image, b: Image, job: Job)
    requires Recoverable(a, job) && Recoverable(b, job) && !job.config.installOnly && SwapsBinary(job.kind)
    requires Manager.LiveSame(a, b, job.binary.path) && IsNew(a, job.binary) && !IsOld(a, job.binary)
    requires !b.decided && job.binary.prior.Some?
    ensures IsNew(b, job.binary) && !Settled(b, job)
  {
    NoWriterNoForeign(a, job);
    NoWriterNoForeign(b, job);
  }
}
