/** The read-only passthrough adapter: it answers the FUSE host's requests by
    resolving each virtual path under its root and querying the backing
    storage. A write access mask and an open whose access mode is not
    read-only are refused, and getattr hides the write permission bits.
    The open flags other than the access mode reach os.open unchecked; the
    model's os.open never changes the tree (see Storage.Backing.Open), so
    here the only state that moves is the process's descriptor table. */
module Passthrough {
  import opened Host
  import opened Paths
  import opened Storage

  /** The per-open request context the host hands to open, read and release.
      The host owns it; the adapter stores the descriptor in `handle`. */
  class FileInfo {
    var handle: nat
    var flags: bv32

    constructor (flags: bv32)
      ensures this.flags == flags && handle == 0
    {
      this.flags := flags;
      handle := 0;
    }
  }

  /** The attribute record getattr fills in for the host. */
  datatype Attributes = Attributes(size: nat, mode: bv32, uid: nat, gid: nat, mtime: int, ctime: int)

  /** getattr's reply: a negative errno, or success (status 0) with the record. */
  datatype AttrReply = AttrError(status: int) | AttrOk(attrs: Attributes)

  /** The mask 0o37777777555: all 32 bits of a mode but the write bits. */
  const MODE_MASK: bv32 := 0xFFFF_FF6D

  /** st_mode & 0o37777777555: the write bits cleared, every other bit kept. */
  function MaskMode(mode: bv32): (r: bv32)
    ensures r & WRITE_BITS == 0
    ensures r & !WRITE_BITS == mode & !WRITE_BITS
  {
    mode & MODE_MASK
  }

  /** Masking a mode that is already masked changes nothing. */
  lemma MaskModeIdempotent(mode: bv32)
    ensures MaskMode(MaskMode(mode)) == MaskMode(mode)
  {
  }

  /** The attribute record reports the stat: size, owner, group and times
      verbatim, the mode with its write bits cleared and its other bits
      (file type, read and execute permissions, set-id and sticky bits) kept. */
  predicate Reports(st: Stat, a: Attributes) {
    && a.size == st.size
    && a.uid == st.uid
    && a.gid == st.gid
    && a.mtime == st.mtime
    && a.ctime == st.ctime
    && a.mode & WRITE_BITS == 0
    && a.mode & !WRITE_BITS == st.mode & !WRITE_BITS
  }

  /** `_full_path`: the virtual path with one leading separator stripped,
      joined under the root as os.path.join does. A path that still starts
      with a separator after the strip replaces the root. */
  function FullPath(base: Path, path: Path): (r: Path)
    requires path != []
    ensures !IsAbsolute(path) ==> JoinedUnder(r, base, path)
    ensures IsAbsolute(path) && !IsAbsolute(path[1..]) ==> JoinedUnder(r, base, path[1..])
    ensures IsAbsolute(path) && IsAbsolute(path[1..]) ==> r == path[1..]
  {
    if path[0] == '/' then Join(base, path[1..]) else Join(base, path)
  }

  /** The leading separator is optional: "/p" and "p" resolve alike. */
  lemma LeadingSlashOptional(base: Path, p: Path)
    requires p != [] && !IsAbsolute(p)
    ensures FullPath(base, "/" + p) == FullPath(base, p)
  {
  }

  /** Only one separator is stripped: a virtual path that starts with two
      resolves to an absolute path that ignores the root. */
  lemma DoubleSlashLeavesRoot(base: Path, p: Path)
    ensures FullPath(base, "//" + p) == "/" + p
  {
  }

  /** Closing the descriptor an open added gives back the table as it was
      before the open. */
  lemma ReleaseUndoesOpen(table: map<nat, OpenFile>, fd: nat, f: OpenFile)
    requires fd !in table
    ensures table[fd := f] - {fd} == table
  {
  }

  /** The adapter: its root directory and the storage it reads through. */
  class ReadonlyPassthrough {
    const basePath: Path
    const backing: Backing

    constructor (basePath: Path, backing: Backing)
      ensures this.basePath == basePath && this.backing == backing
    {
      this.basePath := basePath;
      this.backing := backing;
    }

    /** access: write permission is refused whatever the storage allows;
        any other mask is granted exactly when the storage grants it. */
    function Access(host: Constants, path: Path, mask: bv32): (r: int)
      reads backing
      requires AsksWrite(mask) || path != []
      ensures r == 0 || r == host.MinusEacces()
      ensures AsksWrite(mask) ==> r == host.MinusEacces()
      ensures !AsksWrite(mask) ==> (r == 0 <==> backing.tree.Permits(FullPath(basePath, path), mask))
    {
      if AsksWrite(mask) then host.MinusEacces()
      else if !backing.tree.Permits(FullPath(basePath, path), mask) then host.MinusEacces()
      else 0
    }

    /** open: an access mode other than read-only is refused before the
        storage is touched. A read-only open that fails for any reason
        reports ENOENT: the storage refusing it, or an empty path, whose
        IndexError the same exception handler catches. One the storage
        grants stores a descriptor that was not open before in the context,
        at position 0. */
    method Open(host: Constants, path: Path, info: FileInfo, permitted: bool) returns (status: int)
      requires backing.Valid()
      modifies backing`descriptors, info`handle
      ensures backing.Valid() && backing.tree == old(backing.tree) && info.flags == old(info.flags)
      ensures !ReadOnlyOpen(host, info.flags) ==>
                && status == host.MinusEacces()
                && info.handle == old(info.handle)
                && backing.descriptors == old(backing.descriptors)
      ensures ReadOnlyOpen(host, info.flags) &&
              (path == [] || !(permitted && backing.tree.Exists(FullPath(basePath, path)))) ==>
                && status == host.MinusEnoent()
                && info.handle == old(info.handle)
                && backing.descriptors == old(backing.descriptors)
      ensures ReadOnlyOpen(host, info.flags) && path != [] && permitted && backing.tree.Exists(FullPath(basePath, path)) ==>
                && status == 0
                && info.handle !in old(backing.descriptors)
                && backing.descriptors == old(backing.descriptors)[info.handle := OpenFile(FullPath(basePath, path), 0)]
    {
      if !ReadOnlyOpen(host, info.flags) {
        return host.MinusEacces();
      }
      if path == [] {
        // path[0] raises IndexError inside the try; the handler returns -ENOENT
        return host.MinusEnoent();
      }
      var outcome := backing.Open(FullPath(basePath, path), permitted);
      match outcome
      case Raised(_) =>
        status := host.MinusEnoent();
      case Ok(fd) =>
        info.handle := fd;
        status := 0;
    }

    /** readdir: a path that is not a directory (or does not exist) gives
        (-1, []); a directory gives (0, listing) with "." and ".." in front
        of the storage's entries, in the storage's order, none dropped. A
        directory the process may not read makes os.listdir raise, and the
        error reaches the host. */
    function Readdir(path: Path): (r: Outcome<(int, seq<string>)>)
      reads backing
      requires path != []
      ensures var p := FullPath(basePath, path);
              r.Raised? <==> backing.tree.IsDir(p) && !backing.tree.CanList(p)
      ensures r.Raised? ==> r.error == PermissionDenied
      ensures r.Ok? ==> (r.value.0 == 0 <==> backing.tree.IsDir(FullPath(basePath, path)))
      ensures r.Ok? && r.value.0 != 0 ==> r.value == (-1, [])
      ensures r.Ok? && r.value.0 == 0 ==>
                var listing := backing.tree.nodes[FullPath(basePath, path)].kind.listing;
                var names := r.value.1;
                && |names| == 2 + |listing|
                && names[..2] == [".", ".."]
                && names[2..] == listing
                && multiset(names) == multiset{".", ".."} + multiset(listing)
    {
      var p := FullPath(basePath, path);
      if !backing.tree.IsDir(p) then Ok((-1, []))
      else if !backing.tree.CanList(p) then Raised(PermissionDenied)
      else Ok((0, [".", ".."] + backing.tree.nodes[p].kind.listing))
    }

    /** getattr: a missing path gives -ENOENT; an existing one gives the
        record that reports its stat with the write bits hidden. */
    function Getattr(host: Constants, path: Path): (r: AttrReply)
      reads backing
      requires path != []
      ensures r.AttrError? <==> !backing.tree.Exists(FullPath(basePath, path))
      ensures r.AttrError? ==> r.status == host.MinusEnoent()
      ensures r.AttrOk? ==> Reports(backing.tree.nodes[FullPath(basePath, path)].stat, r.attrs)
    {
      var p := FullPath(basePath, path);
      if !backing.tree.Exists(p) then AttrError(host.MinusEnoent())
      else
        var st := backing.tree.nodes[p].stat;
        AttrOk(Attributes(st.size, MaskMode(st.mode), st.uid, st.gid, st.mtime, st.ctime))
    }

    /** read: seek the context's descriptor to `offset`, then read at most
        `size` bytes; the reply is the byte count and the bytes, fewer at the
        end of the file and none past it. A closed descriptor or a directory
        makes the os call raise, and the error reaches the host. */
    method Read(path: Path, size: nat, offset: nat, info: FileInfo) returns (r: Outcome<(nat, seq<byte>)>)
      requires backing.Valid()
      modifies backing`descriptors
      ensures backing.Valid() && backing.tree == old(backing.tree)
      ensures info.handle !in old(backing.descriptors) ==>
                r == Raised(BadDescriptor) && backing.descriptors == old(backing.descriptors)
      ensures info.handle in old(backing.descriptors) ==>
                var f := old(backing.descriptors)[info.handle];
                match backing.tree.nodes[f.path].kind
                case Directory(_) =>
                  && r == Raised(IsADirectory)
                  && backing.descriptors == old(backing.descriptors)[info.handle := f.(position := offset)]
                case RegularFile(content) =>
                  && r.Ok?
                  && r.value.1 == ReadSlice(content, offset, size)
                  && r.value.0 == |r.value.1|
                  && backing.descriptors == old(backing.descriptors)[info.handle := f.(position := offset + r.value.0)]
    {
      var sought := backing.Seek(info.handle, offset);
      if sought.Raised? {
        return Raised(sought.error);
      }
      var data := backing.ReadFd(info.handle, size);
      if data.Raised? {
        return Raised(data.error);
      }
      r := Ok((|data.value|, data.value));
    }

    /** release: close the context's descriptor. Closing one that is not
        open raises. */
    method Release(path: Path, info: FileInfo) returns (r: Outcome<()>)
      requires backing.Valid()
      modifies backing`descriptors
      ensures backing.Valid() && backing.tree == old(backing.tree)
      ensures info.handle in old(backing.descriptors) ==>
                r == Ok(()) && backing.descriptors == old(backing.descriptors) - {info.handle}
      ensures info.handle !in old(backing.descriptors) ==>
                r == Raised(BadDescriptor) && backing.descriptors == old(backing.descriptors)
    {
      r := backing.Close(info.handle);
    }
  }
}
