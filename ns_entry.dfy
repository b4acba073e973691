/** Entering a mount namespace (`setns` in pkg/mnt_ns_linux.go): pin the
    goroutine to its OS thread, stop sharing filesystem attributes with the
    other threads, open the target's namespace file, associate the thread with
    it, and close the file. The kernel's answer to each fallible system call is
    an input (an `Oracle`); the model records which calls were made. */
module NsEntry {

  /** The system calls the entry makes, in the order setns makes them. */
  datatype Call =
    | LockOsThread        // runtime.LockOSThread()
    | UnshareFs           // unix.Unshare(CLONE_FS)
    | OpenNsFile(pid: int) // os.Open("/proc/<pid>/ns/mnt")
    | SetnsMount          // unix.Setns(fd, CLONE_NEWNS)
    | CloseNsFile         // the deferred nsMountFile.Close()

  /** The error the entry returns, one tag per step that can fail. */
  datatype EntryError = Ok | UnshareErr | OpenErr | SetnsErr

  /** Whether the kernel lets each fallible call succeed. A call the entry
      never reaches leaves its answer unused. */
  datatype Oracle = Oracle(unshareOk: bool, openOk: bool, setnsOk: bool)

  /** The calls of one entry, and the error it returns. */
  datatype EntryRun = EntryRun(calls: seq<Call>, err: EntryError)

  /** Every call of an entry that meets no failure, in order. */
  function FullSequence(pid: int): seq<Call> {
    [LockOsThread, UnshareFs, OpenNsFile(pid), SetnsMount, CloseNsFile]
  }

  /** What one entry for `pid` does when the kernel answers as `kernel` says. */
  function Entry(pid: int, kernel: Oracle): (r: EntryRun)
    // the calls follow the fixed order and stop early, never skipping a step
    ensures r.calls <= FullSequence(pid)
    // the thread is pinned first, before anything can fail
    ensures |r.calls| >= 2 && r.calls[0] == LockOsThread && r.calls[1] == UnshareFs
    // success exactly when unshare, open and setns all succeed
    ensures r.err == Ok <==> kernel.unshareOk && kernel.openOk && kernel.setnsOk
    // the first failing step names the error and nothing after it runs
    ensures r.err == UnshareErr <==> !kernel.unshareOk
    ensures r.err == UnshareErr ==> r.calls == [LockOsThread, UnshareFs]
    ensures r.err == OpenErr <==> kernel.unshareOk && !kernel.openOk
    ensures r.err == OpenErr ==> r.calls == [LockOsThread, UnshareFs, OpenNsFile(pid)]
    ensures r.err == SetnsErr <==> kernel.unshareOk && kernel.openOk && !kernel.setnsOk
    // the file is opened only after unshare succeeded, and closed exactly
    // when it was opened, as the last call
    ensures OpenNsFile(pid) in r.calls <==> kernel.unshareOk
    ensures SetnsMount in r.calls <==> kernel.unshareOk && kernel.openOk
    ensures CloseNsFile in r.calls <==> kernel.unshareOk && kernel.openOk
    ensures CloseNsFile in r.calls ==> r.calls[|r.calls| - 1] == CloseNsFile
  {
    if !kernel.unshareOk then EntryRun([LockOsThread, UnshareFs], UnshareErr)
    else if !kernel.openOk then EntryRun([LockOsThread, UnshareFs, OpenNsFile(pid)], OpenErr)
    else EntryRun(FullSequence(pid), if kernel.setnsOk then Ok else SetnsErr)
  }

  /** The calling goroutine together with the OS thread it runs on: whether
      the process has terminated, whether the goroutine is pinned to its
      thread, whether the thread has its own filesystem attributes, whether
      the namespace file is open, whether the thread has joined a target
      namespace, and the log of system calls made so far. */
  class Caller {
    var exited: bool
    var threadLocked: bool
    var fsUnshared: bool
    var fileOpen: bool
    var joined: bool
    var calls: seq<Call>

    /** Between operations no namespace file is held, and each later stage of
        an entry implies the earlier ones. */
    ghost predicate Valid()
      reads this
    {
      !fileOpen && (fsUnshared ==> threadLocked) && (joined ==> fsUnshared)
    }

    constructor ()
      ensures Valid()
      ensures !exited && !threadLocked && !fsUnshared && !fileOpen && !joined && calls == []
    {
      exited, threadLocked, fsUnshared, fileOpen, joined := false, false, false, false, false;
      calls := [];
    }

    /** log.Fatalf: the process terminates; nothing else changes. */
    method Exit()
      modifies this
      ensures exited
      ensures threadLocked == old(threadLocked) && fsUnshared == old(fsUnshared)
      ensures fileOpen == old(fileOpen) && joined == old(joined) && calls == old(calls)
    {
      exited := true;
    }

    /** The deferred close of the namespace file. */
    method CloseNs()
      requires fileOpen
      modifies this
      ensures !fileOpen && calls == old(calls) + [CloseNsFile]
      ensures exited == old(exited) && threadLocked == old(threadLocked)
      ensures fsUnshared == old(fsUnshared) && joined == old(joined)
    {
      fileOpen := false;
      calls := calls + [CloseNsFile];
    }

    /** setns(pid): enter the mount namespace of process `pid`. */
    method Setns(pid: int, kernel: Oracle) returns (err: EntryError)
      requires Valid() && !exited
      modifies this
      ensures Valid() && !exited
      ensures err == Entry(pid, kernel).err
      ensures calls == old(calls) + Entry(pid, kernel).calls
      // the pin is taken on every path and never released
      ensures threadLocked
      ensures fsUnshared == (old(fsUnshared) || kernel.unshareOk)
      // the namespace file is closed on every path
      ensures !fileOpen
      ensures joined == (old(joined) || err == Ok)
    {
      threadLocked := true;
      calls := calls + [LockOsThread];

      calls := calls + [UnshareFs];
      if !kernel.unshareOk {
        return UnshareErr;
      }
      fsUnshared := true;

      calls := calls + [OpenNsFile(pid)];
      if !kernel.openOk {
        return OpenErr;
      }
      fileOpen := true;

      calls := calls + [SetnsMount];
      if !kernel.setnsOk {
        CloseNs();
        return SetnsErr;
      }
      joined := true;
      CloseNs();
      return Ok;
    }
  }
}
