/** Constants the adapter takes from its FUSE host and from the POSIX headers.

    The host owns two constant tables, one of errno values and one of fcntl
    flags. The adapter reads three entries from them: EACCES, ENOENT and
    O_RDONLY. The model takes those three as given values. W_OK comes from
    <unistd.h> through Python's os module. The access-mode mask 0x03 (O_ACCMODE
    in <fcntl.h>) is written as a literal in the adapter. */
module Host {

  /** A positive errno value, as the host's errno table lists it. */
  type Errno = n: int | n > 0 witness 1

  /** The entries of the host's constant tables that the adapter uses. */
  datatype Constants = Constants(eacces: Errno, enoent: Errno, oRdonly: bv32) {

    /** The status -EACCES. */
    function MinusEacces(): int {
      -(eacces as int)
    }

    /** The status -ENOENT. */
    function MinusEnoent(): int {
      -(enoent as int)
    }
  }

  /** R_OK from <unistd.h>: the read-permission bit of an access mask. */
  const R_OK: bv32 := 4

  /** W_OK from <unistd.h>: the write-permission bit of an access mask. */
  const W_OK: bv32 := 2

  /** R_OK | W_OK | X_OK: every bit an access mask may hold. */
  const ACCESS_BITS: bv32 := 7

  /** The access-mode bits of open flags (O_ACCMODE). */
  const ACCESS_MODE: bv32 := 0x03

  /** S_IWUSR | S_IWGRP | S_IWOTH from <sys/stat.h>, octal 0222. */
  const WRITE_BITS: bv32 := 0x92

  /** The access mask asks for write permission. */
  predicate AsksWrite(mask: bv32) {
    mask & W_OK != 0
  }

  /** The access mode of the open flags is the host's read-only mode. */
  predicate ReadOnlyOpen(host: Constants, flags: bv32) {
    flags & ACCESS_MODE == host.oRdonly
  }
}
