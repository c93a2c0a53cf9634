# Read-only passthrough filesystem, modelled in Dafny

This project models the read-only passthrough adapter of pyfuse: the class
`ReadonlyPassthrough` that a FUSE host calls for `access`, `open`, `readdir`,
`getattr`, `read` and `release`. The adapter resolves each virtual path under
its root directory with `_full_path`, asks the backing storage, and answers in
the host's negative-errno convention. It rejects a write access mask and an
open whose access mode is not read-only, and `getattr` hides the write
permission bits. The other open flags reach `os.open` unchecked; the model's
`os.open` only opens existing entries (see "Left out"). The model proves these
rules and what each handler returns and changes.

Files and modules:

- `host.dfy` (`Host`): the three host constants the adapter reads (EACCES,
  ENOENT, O_RDONLY), given as a `Constants` value. Also R_OK, W_OK, the access-mode
  mask 0x03 and the write bits 0o222 (written 0x92).
- `paths.dfy` (`Paths`): the POSIX `os.path.join` for one component.
- `storage.dfy` (`Storage`): the backing storage. `Tree` is an immutable map
  from resolved path to entry, and its predicates stand for `os.path.exists`,
  `os.path.isdir`, `os.access` and a successful `os.listdir`. Each entry is a directory listing or file
  bytes, plus a stat record and the access bits the kernel grants. The class
  `Backing` holds the tree and the process's descriptor table
  (`fd -> (path, position)`). Its methods are the os calls the adapter makes:
  `open`, `lseek`, `read`, `close`. An os call that would raise `OSError`
  returns `Raised(error)`.
- `passthrough.dfy` (`Passthrough`): the adapter. `FullPath` is
  `_full_path`. The class `ReadonlyPassthrough` holds the root and the
  storage. `access`, `readdir` and `getattr` are functions that only read.
  `open`, `read` and `release` are methods that change the descriptor table
  and the host's `FileInfo` context.
- `scenario.dfy` (`Scenario`): a client session over a root holding `a.txt`
  ("hello") and a directory `sub`. It shows that the replies follow from the
  contracts alone: the listing, a listing refused on an unreadable directory,
  reads of `(5, "hello")` and `(2, "lo")`, release, a refused read-write open,
  ENOENT for an empty path and for a missing one, and a refused write access.

Behaviour of the code that the model keeps as written:

- `_full_path` strips only one leading separator. A virtual path starting with
  `//` therefore resolves to an absolute path outside the root
  (`DoubleSlashLeavesRoot`). FUSE hands the adapter normalised paths, so this
  case does not arise from the host.
- `release` does not guard against a second release of the same handle:
  `os.close` raises on a closed descriptor, and the model returns
  `Raised(BadDescriptor)` for that case.
- `getattr` assigns mtime and ctime, but the `FileAttributes` structure in
  pyfuse.py:33-41 has only size, mode, uid and gid fields, so the two times
  never reach C through that structure. The model keeps them in the record,
  as the adapter sets them.
- An empty virtual path makes `path[0]` raise IndexError. In `open` the
  exception handler catches it and the reply is -ENOENT; `access`, `readdir`
  and `getattr` have no handler, so there the model requires a non-empty path.

## Model

| member | source | states |
|---|---|---|
| `Paths.Join` | ReadonlyPassthrough.py:23-25 | os.path.join: an absolute component replaces the base. A relative component follows a non-empty base with exactly one separator between them (the base's own trailing one counts), and is the whole result when the base is empty |
| `Paths.JoinEmptyBase` | ReadonlyPassthrough.py:23-25 | joining under an empty root gives the component itself |
| `Passthrough.FullPath` | ReadonlyPassthrough.py:21-25 | exactly one leading `/` is stripped. The rest lands under the root (one separator between them, none for an empty root) when it is relative, and replaces the root when it is still absolute. A path without a leading `/` is joined unchanged. The empty path is outside the domain |
| `Passthrough.LeadingSlashOptional` | ReadonlyPassthrough.py:21-25 | `"/p"` and `"p"` resolve to the same backing path |
| `Passthrough.DoubleSlashLeavesRoot` | ReadonlyPassthrough.py:22-23 | a virtual path `"//p"` resolves to `"/p"`, whatever the root |
| `Passthrough.FileInfo.constructor` | pyfuse.py:22-30 | the per-open context with the `handle` and `flags` fields of the structure. It stands for the C bridge copying FUSE's `fuse_file_info` into the structure before the callback (bridge.h:28-31), which carries the flags the host was given. Its handle 0 is a chosen starting value: whatever FUSE supplies, no handler's contract depends on it, and `open` overwrites it with the descriptor |
| `Storage.Tree.Exists` | ReadonlyPassthrough.py:62 | os.path.exists holds exactly when os.access grants the empty mask F_OK |
| `Storage.Tree.IsDir` | ReadonlyPassthrough.py:52 | os.path.isdir holds only for an entry that exists |
| `Storage.Tree.Permits` | ReadonlyPassthrough.py:31 | os.access grants a mask only on an existing entry and only when the mask holds no bit beyond R_OK, W_OK and X_OK (the kernel rejects others); then exactly when every requested bit is among those the kernel grants |
| `Storage.Tree.CanList` | ReadonlyPassthrough.py:56 | os.listdir succeeds only on a directory, and exactly when the process may read it (R_OK) |
| `Passthrough.ReadonlyPassthrough.constructor` | ReadonlyPassthrough.py:17-19 | the adapter keeps the root and the storage it was given |
| `Passthrough.ReadonlyPassthrough.Access` | ReadonlyPassthrough.py:27-34 | a mask with W_OK gives -EACCES whatever the storage allows. Otherwise it returns 0 exactly when os.access grants the mask on the resolved path, and -EACCES when it does not. No other value is returned |
| `Passthrough.ReadonlyPassthrough.Open` | ReadonlyPassthrough.py:36-48 | flags whose access mode is not O_RDONLY give -EACCES, with the context's handle and the descriptor table unchanged. A read-only open of an empty path, or one the storage refuses, gives -ENOENT with nothing changed: the same exception handler catches both. One it grants stores a previously unused descriptor in `info.handle`, adds it to the table at position 0, and returns 0. The model's os.open leaves the tree as it was (see "Left out") |
| `Storage.Backing.Open` | ReadonlyPassthrough.py:43 | os.open succeeds exactly when the entry exists and the kernel permits it. It then returns a descriptor that was not open, at position 0. On failure the table is unchanged |
| `Storage.FreeDescriptorExists` | ReadonlyPassthrough.py:43 | some descriptor number no larger than the number of open descriptors is free (pigeonhole), so os.open can always pick a fresh one |
| `Passthrough.ReadonlyPassthrough.Readdir` | ReadonlyPassthrough.py:50-58 | it raises exactly when the resolved path is a directory the process may not read (os.listdir's PermissionError reaches the host). Otherwise it returns status 0 exactly when the path is a directory, and `(-1, [])` when it is not. A readable directory gives `"."`, `".."`, then the storage's listing in its order: length 2 + \|listing\|, and the same multiset of names as `{".", ".."}` plus the listing |
| `Passthrough.ReadonlyPassthrough.Getattr` | ReadonlyPassthrough.py:60-74 | it returns -ENOENT exactly when the resolved path does not exist. Otherwise the record has size, uid, gid, mtime and ctime verbatim, and the mode with every write bit clear and every other bit equal to st_mode's |
| `Passthrough.MaskMode` | ReadonlyPassthrough.py:69 | `st_mode & 0o37777777555` has the bits 0o222 clear and agrees with st_mode on every other bit |
| `Passthrough.MaskModeIdempotent` | ReadonlyPassthrough.py:69 | masking an already-masked mode changes nothing |
| `Passthrough.ReadonlyPassthrough.Read` | ReadonlyPassthrough.py:76-79 | a descriptor that is not open makes the call raise, with nothing changed. On a regular file it returns `(n, data)`, where data is the content from offset up to min(offset + size, length) and n = \|data\|. The descriptor's position is then offset + n. A directory makes the read raise after the seek has moved the position to offset. The tree never changes |
| `Storage.Backing.Seek` | ReadonlyPassthrough.py:77 | os.lseek with SEEK_SET sets the position of an open descriptor to offset and changes nothing else. A closed descriptor raises |
| `Storage.Backing.ReadFd` | ReadonlyPassthrough.py:78 | os.read returns the bytes from the current position, at most size of them, and advances the position past them. A directory or a closed descriptor raises |
| `Storage.ReadSlice` | ReadonlyPassthrough.py:78 | the bytes read are at most size in number and empty at or past end-of-file. Their count is min(size, length - offset) before it, and byte i is content[offset + i] |
| `Storage.ReadsCompose` | ReadonlyPassthrough.py:76-79 | reading `a` bytes at offset, then `b` bytes where that read stopped, yields the bytes of one read of `a + b` at offset |
| `Passthrough.ReadonlyPassthrough.Release` | ReadonlyPassthrough.py:81-82 | the context's descriptor leaves the table and every other descriptor keeps its entry. A descriptor that is not open raises, with nothing changed. The tree never changes |
| `Storage.Backing.Close` | ReadonlyPassthrough.py:82 | os.close removes exactly that descriptor from the table. A closed descriptor raises |
| `Passthrough.ReleaseUndoesOpen` | ReadonlyPassthrough.py:81-82 | closing the descriptor an open added gives back the table as it was before the open |

## Left out

- Storage.Backing.Open: the open flags beyond the access mode are not modelled. The full flags go to os.open, so O_CREAT or O_TRUNC could create or truncate a file; the model treats the backing open as "fails, or opens an existing entry". Whether the kernel allows it is the parameter `permitted`, because permissions, descriptor limits and flags are not visible to the model.
- Storage.Backing.Open: the new descriptor is any number not already open, not necessarily the lowest free one POSIX prescribes. The adapter's behaviour does not depend on which number it gets.
- Storage.Backing.ReadFd: a regular-file read returns every available byte up to size. Short reads and I/O errors are not modelled.
- Passthrough.FullPath: an empty virtual path is outside the domain, because `path[0]` raises IndexError. `open` catches that error and is modelled on the empty path (-ENOENT). `access` without W_OK, `readdir` and `getattr` let it escape to the host, so they require a non-empty path; `access` with W_OK returns before reaching `_full_path` and accepts it.
- Passthrough.ReadonlyPassthrough.Open: its ensures `backing.tree == old(backing.tree)` holds because the model's os.open never creates or truncates. In the code only the access mode is checked, so O_RDONLY with O_CREAT or O_TRUNC would reach os.open and could change the backing tree.
- Passthrough.FileInfo: the `direct_io` and `nonseekable` fields, which the adapter never reads or writes, and the 64-bit width of `handle` are not modelled (`flags` is a 32-bit `bv32`, as in the structure). The handle value FUSE supplies before `open` is not modelled; the constructor starts it at 0, and the copy of the fields back into `fuse_file_info` after the callback is C plumbing.
- Passthrough.ReadonlyPassthrough.Readdir: the only os.listdir failure modelled is a directory without R_OK; I/O errors and a directory removed between the isdir check and the listing are not.
- Storage.Tree: entries are keyed by the exact resolved string. Symbolic links, `..`, repeated separators and trailing-slash semantics are not canonicalised, so `join(root, "")`, which is `root + "/"` for a non-empty root that does not end in `/`, `root` itself when it does, and `""` for an empty root, keys the root directory.
- Passthrough.ReadonlyPassthrough.Getattr: st_mode is taken as a 32-bit mode_t, so the mask's truncation of higher bits has no effect. mtime and ctime are whole seconds supplied by the stat record; the float truncation by `int()` is not modelled. The ctypes truncation of size, uid and gid to the structure's field widths is not modelled.
- The host constant tables (ERRNO_CONSTANTS, FCNTL_CONSTANTS), the `BasicFs` base class and the host's dispatch are not part of this model. EACCES, ENOENT and O_RDONLY are given values.
- `main` (argument handling and launch) and the `print(e)` debug output in `open` are I/O.
- Races between the existence check and the later stat or listdir, and concurrent requests, are not modelled. The tree is fixed during a request.
- bridge.py, pyfuse.py (apart from the `FileInfo` context fields), the test harnesses, the header scrapers, hello.py and the files under old/ are FFI, process and compiler plumbing. They are not part of this model.
