/** Shared value types of the launch model: optional values, results,
    open files named by their descriptor, and abstract closer ids. */
module Base {

  datatype Option<+T> = None | Some(value: T) {
    function GetOr(default: T): T {
      match this
      case Some(v) => v
      case None => default
    }
  }

  datatype Result<+T, +E> = Ok(value: T) | Err(error: E)

  /** A file descriptor number of the calling process. */
  type Fd = int

  /** An `*os.File`, identified by the descriptor its `Fd()` returns. */
  datatype File = File(fd: Fd)

  /** An `io.Closer` registered on a command (a pipe end, the null device). */
  type CloserId = nat

  /** Descriptors of the process's own `os.Stdin`, `os.Stdout`, `os.Stderr`. */
  const StdinFd: Fd := 0
  const StdoutFd: Fd := 1
  const StderrFd: Fd := 2

  function Elems<T>(s: seq<T>): set<T> {
    set x | x in s
  }

  function FdSet(files: seq<File>): set<Fd> {
    set i | 0 <= i < |files| :: files[i].fd
  }
}
