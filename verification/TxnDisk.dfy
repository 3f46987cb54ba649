/**
 * The file system as the transaction code uses it.  Every operation is one durable step that may fail and leave the
 * disk alone; before it, another writer may act.  `trace` holds every state the disk went through, so a crash leaves
 * the disk in one of its elements.
 */
module TxnDisk {
  import opened Wrappers
  import opened TxnImage

  datatype Lookup = Present(file: File) | Absent | Unreadable

  datatype Outcome = Done | Missing | Refused

  datatype MarkerRead = Read(marker: Option<Pending>) | Garbled

  class Disk {
    var image: Image
    var trace: seq<Image>
    /** The live file another writer may create, if there is such a writer. */
    const writer: Option<string>
    /** No operation has failed so far, and no other writer has acted. */
    ghost var calm: bool

    constructor (start: Image, writer: Option<string>)
      ensures image == start && trace == [start] && this.writer == writer && calm
    {
      image := start;
      calm := true;
      trace := [start];
      this.writer := writer;
    }

    /** Every state so far keeps what the transaction promises. */
    ghost predicate Safe(job: Job)
      reads this
    {
      && ValidJob(job) && (writer.Some? ==> job.config.installOnly && writer.value == job.config.path)
      && trace != [] && image == trace[|trace| - 1]
      && forall k | 0 <= k < |trace| :: Recoverable(trace[k], job)
    }

    method Interfere()
      modifies this
      ensures Interferes(writer, old(image), image) && trace == old(trace) + [image]
      ensures calm ==> old(calm) && image == old(image)
    {
      if * {
        if writer.Some? && Path(writer.value, Live) !in image.files {
          var bytes: Bytes := *;
          calm := false;
          image := Created(image, Path(writer.value, Live), bytes);
        }
      }
      trace := trace + [image];
    }

    method Become(next: Image)
      modifies this
      ensures image == next && trace == old(trace) + [next] && calm == old(calm)
    {
      image := next;
      trace := trace + [image];
    }

    /** A step that leaves the disk alone but may fail. */
    method Falter() returns (ok: bool)
      modifies this`calm
      ensures calm ==> old(calm) && ok
    {
      ok := *;
      if !ok {
        calm := false;
      }
    }

    /** Lstat and Stat: the answer is true when there is one. */
    method Stat(path: Path) returns (found: Lookup)
      modifies this
      ensures Interferes(writer, old(image), image) && trace == old(trace) + [image]
      ensures found.Present? ==> path in image.files && image.files[path] == found.file
      ensures found.Absent? ==> path !in image.files
      ensures calm ==> old(calm) && image == old(image) && !found.Unreadable?
    {
      Interfere();
      var readable := Falter();
      if !readable {
        found := Unreadable;
      } else if path in image.files {
        found := Present(image.files[path]);
      } else {
        found := Absent;
      }
    }

    method Remove(path: Path) returns (outcome: Outcome, ghost before: Image)
      modifies this
      ensures Interferes(writer, old(image), before) && trace == old(trace) + [before, image]
      ensures outcome.Missing? ==> path !in before.files
      ensures image == if outcome.Done? then Removed(before, path) else before
      ensures calm ==> old(calm) && before == old(image) && outcome == if path in before.files then Done else Missing
    {
      Interfere();
      before := image;
      if path !in image.files {
        Become(image);
        outcome := Missing;
        return;
      }
      var ok := Falter();
      if ok {
        Become(Removed(image, path));
        outcome := Done;
      } else {
        Become(image);
        outcome := Refused;
      }
    }

    method Rename(from: Path, to: Path) returns (ok: bool, ghost before: Image)
      modifies this
      ensures Interferes(writer, old(image), before) && trace == old(trace) + [before, image]
      ensures ok ==> from in before.files && image == Renamed(before, from, to)
      ensures !ok ==> image == before
      ensures calm ==> old(calm) && before == old(image) && ok == (from in before.files)
    {
      Interfere();
      before := image;
      ok := false;
      if from in image.files {
        ok := Falter();
      }
      if ok {
        Become(Renamed(image, from, to));
      } else {
        Become(image);
      }
    }

    /** link(2) never replaces an existing name. */
    method Link(from: Path, to: Path) returns (ok: bool, ghost before: Image)
      modifies this
      ensures Interferes(writer, old(image), before) && trace == old(trace) + [before, image]
      ensures ok ==> from in before.files && to !in before.files && image == Linked(before, from, to)
      ensures !ok ==> image == before
      ensures calm ==> old(calm) && before == old(image) && ok == (from in before.files && to !in before.files)
    {
      Interfere();
      before := image;
      ok := false;
      if from in image.files && to !in image.files {
        ok := Falter();
      }
      if ok {
        Become(Linked(image, from, to));
      } else {
        Become(image);
      }
    }

    /** Puts a new file with these bytes at the path, or fails with nothing changed. */
    method Put(path: Path, bytes: Bytes) returns (ok: bool, ghost before: Image)
      modifies this
      ensures Interferes(writer, old(image), before) && trace == old(trace) + [before, image]
      ensures image == if ok then Wrote(before, path, bytes) else before
      ensures calm ==> old(calm) && before == old(image) && ok
    {
      Interfere();
      before := image;
      ok := Falter();
      if ok {
        Become(Wrote(image, path, bytes));
      } else {
        Become(image);
      }
    }

    /** Opens for writing with truncation: an existing file keeps its inode. */
    method Overwrite(path: Path, bytes: Bytes) returns (ok: bool, ghost before: Image)
      modifies this
      ensures Interferes(writer, old(image), before) && trace == old(trace) + [before, image]
      ensures image == if ok then Overwritten(before, path, bytes) else before
      ensures calm ==> old(calm) && before == old(image) && ok
    {
      Interfere();
      before := image;
      ok := Falter();
      if ok {
        Become(Overwritten(image, path, bytes));
      } else {
        Become(image);
      }
    }

    method ReadPending() returns (read: MarkerRead)
      modifies this
      ensures Interferes(writer, old(image), image) && trace == old(trace) + [image]
      ensures read.Read? ==> read.marker == image.marker
      ensures calm ==> old(calm) && image == old(image) && read.Read?
    {
      Interfere();
      var ok := Falter();
      read := if ok then Read(image.marker) else Garbled;
    }

    method WritePending(p: Pending) returns (ok: bool, ghost before: Image)
      modifies this
      ensures Interferes(writer, old(image), before) && trace == old(trace) + [before, image]
      ensures image == if ok then Marked(before, p) else before
      ensures calm ==> old(calm) && before == old(image) && ok
    {
      Interfere();
      before := image;
      ok := Falter();
      if ok {
        Become(Marked(image, p));
      } else {
        Become(image);
      }
    }

    /** Removes the marker; `knew` is what a rollback leaves behind in the history. */
    method RemovePending(knew: Option<set<string>>) returns (ok: bool, ghost before: Image)
      modifies this
      ensures Interferes(writer, old(image), before) && trace == old(trace) + [before, image]
      ensures image == if ok then Unmarked(before, knew) else before
      ensures calm ==> old(calm) && before == old(image) && ok
    {
      Interfere();
      before := image;
      ok := Falter();
      if ok {
        Become(Unmarked(image, knew));
      } else {
        Become(image);
      }
    }

    /** Records that a recovery goes on without having restored a live file. */
    method NotePassedOver(path: string)
      modifies this
      ensures image == PassedOver(old(image), path) && trace == old(trace) + [image] && calm == old(calm)
    {
      Become(PassedOver(image, path));
    }

    /** A crash and a reboot: the disk is left in one of the states it went through since the last boot. */
    method Crash()
      requires trace != []
      modifies this
      ensures image in old(trace) && trace == [image] && calm == old(calm)
    {
      var k: nat :| k < |trace|;
      image := trace[k];
      trace := [image];
    }

    /** A reboot with nothing under way. */
    method Reboot()
      modifies this`trace
      ensures trace == [image]
    {
      trace := [image];
    }
  }
}
