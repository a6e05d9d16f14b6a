/**
 * The open sequence of `openPort` (serial_linux.go:15-130): open the device,
 * read its attributes (TCGETS), transform them, write them back (TCSETS),
 * switch the descriptor to blocking mode and hand it to the caller.
 *
 * The kernel side of the descriptor is class `File`. Each system call may
 * fail with any errno, so each is a method whose body chooses its outcome
 * freely (`:| true`); what the kernel holds afterwards is stated for both
 * outcomes. Whether the descriptor is open, how often it was closed, its
 * blocking mode and the number of TCSETS requests are ghost state: the
 * source cannot observe them, but its promises are about them.
 */
module Port {
  import opened Termbits
  import opened PortConfig
  import opened Transformer

  /** An open (or since closed) device file, with the state the kernel keeps for it. */
  class File {
    /** The path the file was opened with. */
    const name: string
    /** The attributes the device held when it was opened. */
    ghost const initial: Attrs
    /** The attributes the kernel holds for the device now. */
    var attrs: Attrs
    ghost var isOpen: bool
    ghost var closeCount: nat
    ghost var nonblocking: bool
    ghost var setCount: nat

    /** serial_linux.go:16: a descriptor opened with O_NONBLOCK on a device holding `device`. */
    constructor (name: string, device: Attrs)
      ensures this.name == name && initial == device && attrs == device
      ensures isOpen && closeCount == 0 && nonblocking && setCount == 0
    {
      this.name := name;
      initial := device;
      attrs := device;
      isOpen := true;
      closeCount := 0;
      nonblocking := true;
      setCount := 0;
    }

    /**
     * serial_linux.go:23-33: the TCGETS ioctl. On success the kernel copies
     * the device's attributes into `t`; on failure it returns a non-zero
     * errno and `t` is not written.
     */
    method TcGets(t: Termios) returns (errno: nat)
      requires t.Valid() && isOpen
      modifies t, t.cc
      ensures t.Valid()
      ensures errno == 0 ==> t.Value() == attrs
      ensures errno != 0 ==> t.Value() == old(t.Value())
    {
      errno :| true;
      if errno == 0 {
        t.Load(attrs);
      }
    }

    /**
     * serial_linux.go:113-123: the TCSETS ioctl. On success the kernel takes
     * the attributes in `t`; on failure it keeps its own.
     */
    method TcSets(t: Termios) returns (errno: nat)
      requires t.Valid() && isOpen
      modifies this
      ensures errno == 0 ==> attrs == t.Value()
      ensures errno != 0 ==> attrs == old(attrs)
      ensures setCount == old(setCount) + 1
      ensures isOpen && closeCount == old(closeCount) && nonblocking == old(nonblocking)
    {
      errno :| true;
      if errno == 0 {
        attrs := t.Value();
      }
      setCount := setCount + 1;
    }

    /** serial_linux.go:125-127: `syscall.SetNonblock`, which may fail with an errno. */
    method SetNonblock(nonblocking: bool) returns (err: Option<Error>)
      requires isOpen
      modifies this
      ensures err.Some? ==> err.value.SyscallFailed? && err.value.errno != 0
      ensures this.nonblocking == if err.None? then nonblocking else old(this.nonblocking)
      ensures attrs == old(attrs) && isOpen && closeCount == old(closeCount) && setCount == old(setCount)
    {
      var errno: nat :| true;
      if errno == 0 {
        this.nonblocking := nonblocking;
        err := None;
      } else {
        err := Some(SyscallFailed(errno));
      }
    }

    /** `os.File.Close`: releases the descriptor if it is still open; its error is ignored. */
    method Close()
      modifies this
      ensures !isOpen
      ensures closeCount == old(closeCount) + (if old(isOpen) then 1 else 0)
      ensures attrs == old(attrs) && nonblocking == old(nonblocking) && setCount == old(setCount)
    {
      if isOpen {
        closeCount := closeCount + 1;
      }
      isOpen := false;
    }
  }

  /** serial_linux.go:16-19: `os.OpenFile` with O_RDWR, O_NOCTTY and O_NONBLOCK. */
  method OpenFile(name: string) returns (f: File?, err: Option<Error>)
    ensures (f == null) <==> err.Some?
    ensures err.Some? ==> err.value.OpenFailed? && err.value.path == name
    ensures f != null ==> fresh(f) && f.name == name && f.attrs == f.initial
    ensures f != null ==> f.isOpen && f.closeCount == 0 && f.nonblocking && f.setCount == 0
  {
    var errno: nat :| true;
    if errno != 0 {
      return null, Some(OpenFailed(name, errno));
    }
    var device: Attrs :| true;
    f := new File(name, device);
    err := None;
  }

  /** Where `openPort` returned: the step that failed, or Done. */
  datatype Exit = AtOpen | AtGetAttrs | AtBaud | AtSetAttrs | AtSetBlocking | Done

  /**
   * serial_linux.go:15-130, as written. `file` is the file the call opened
   * (null when opening failed) and `exit` where it returned.
   *
   * The deferred close is registered only at serial_linux.go:105, so a
   * TCGETS failure and an unknown baud rate return with the file still
   * open; a failure of TCSETS or of SetNonblock closes it exactly once.
   */
  method OpenPort(name: string, c: Config) returns (rwc: File?, err: Option<Error>, ghost file: File?, ghost exit: Exit)
    ensures (rwc == null) <==> err.Some?
    ensures rwc != null ==> rwc == file && exit == Done
    ensures (file == null) <==> exit == AtOpen
    ensures file != null ==> fresh(file) && file.name == name && file.closeCount <= 1
    ensures exit == AtOpen ==> err.Some? && err.value.OpenFailed? && err.value.path == name
    ensures exit == AtGetAttrs ==>
      err.Some? && err.value.SyscallFailed? && err.value.errno != 0 &&
      file.isOpen && file.closeCount == 0 && file.setCount == 0 && file.attrs == file.initial
    ensures exit == AtBaud ==>
      !Supported(c.baud) && err == Some(UnknownBaudRate(c.baud)) &&
      file.isOpen && file.closeCount == 0 && file.setCount == 0 && file.attrs == file.initial
    ensures exit == AtSetAttrs ==>
      Supported(c.baud) && err.Some? && err.value.SyscallFailed? && err.value.errno != 0 &&
      !file.isOpen && file.closeCount == 1 && file.setCount == 1 && file.attrs == file.initial
    ensures exit == AtSetBlocking ==>
      Supported(c.baud) && err.Some? && err.value.SyscallFailed? && err.value.errno != 0 &&
      !file.isOpen && file.closeCount == 1 && file.setCount == 1 && Configured(file.initial, c, file.attrs)
    ensures exit == Done ==>
      err.None? && file.isOpen && file.closeCount == 0 && !file.nonblocking && file.setCount == 1 &&
      Configured(file.initial, c, file.attrs)
  {
    var f;
    f, err := OpenFile(name);
    file := f;
    if err.Some? {
      return null, err, file, AtOpen;
    }
    var t := new Termios();
    var errno := f.TcGets(t);
    if errno != 0 {
      return null, Some(SyscallFailed(errno)), file, AtGetAttrs;
    }
    var badBaud := t.Apply(c);
    if badBaud.Some? {
      return null, badBaud, file, AtBaud;
    }

    // serial_linux.go:105-109: from here on, a non-nil error closes the file on return.
    errno := f.TcSets(t);
    if errno != 0 {
      rwc, err, exit := null, Some(SyscallFailed(errno)), AtSetAttrs;
    } else {
      err := f.SetNonblock(false);
      if err.Some? {
        rwc, exit := null, AtSetBlocking;
      } else {
        rwc, exit := f, Done;
      }
    }
    if err.Some? && f != null {
      f.Close();
    }
  }

  /**
   * The open sequence as its error policy intends it: every failure after
   * the file is opened closes it exactly once, before the error propagates.
   * It differs from `OpenPort` only in the two early returns; every exit
   * keeps `OpenPort`'s error and attribute guarantees.
   */
  method OpenPortReleasing(name: string, c: Config) returns (rwc: File?, err: Option<Error>, ghost file: File?, ghost exit: Exit)
    ensures (rwc == null) <==> err.Some?
    ensures rwc != null ==> rwc == file && exit == Done
    ensures (file == null) <==> exit == AtOpen
    ensures file != null ==> fresh(file) && file.name == name && file.closeCount <= 1
    ensures file != null && err.Some? ==> !file.isOpen && file.closeCount == 1
    ensures file != null && err.Some? && Supported(c.baud) ==> err.value.SyscallFailed? && err.value.errno != 0
    ensures exit == AtOpen ==> err.Some? && err.value.OpenFailed? && err.value.path == name
    ensures exit == AtGetAttrs ==>
      err.Some? && err.value.SyscallFailed? && err.value.errno != 0 &&
      file.setCount == 0 && file.attrs == file.initial
    ensures exit == AtBaud ==>
      !Supported(c.baud) && err == Some(UnknownBaudRate(c.baud)) &&
      file.setCount == 0 && file.attrs == file.initial
    ensures exit == AtSetAttrs ==>
      Supported(c.baud) && err.Some? && err.value.SyscallFailed? && err.value.errno != 0 &&
      file.setCount == 1 && file.attrs == file.initial
    ensures exit == AtSetBlocking ==>
      Supported(c.baud) && err.Some? && err.value.SyscallFailed? && err.value.errno != 0 &&
      file.setCount == 1 && Configured(file.initial, c, file.attrs)
    ensures exit == Done ==>
      err.None? && file.isOpen && file.closeCount == 0 && !file.nonblocking && file.setCount == 1 &&
      Configured(file.initial, c, file.attrs)
  {
    var f;
    f, err := OpenFile(name);
    file := f;
    if err.Some? {
      return null, err, file, AtOpen;
    }
    var t := new Termios();
    var errno := f.TcGets(t);
    if errno != 0 {
      err, exit := Some(SyscallFailed(errno)), AtGetAttrs;
    } else {
      err := t.Apply(c);
      if err.Some? {
        exit := AtBaud;
      } else {
        errno := f.TcSets(t);
        if errno != 0 {
          err, exit := Some(SyscallFailed(errno)), AtSetAttrs;
        } else {
          err := f.SetNonblock(false);
          exit := if err.Some? then AtSetBlocking else Done;
        }
      }
    }
    if err.Some? {
      f.Close();
      rwc := null;
    } else {
      rwc := f;
    }
  }
}
