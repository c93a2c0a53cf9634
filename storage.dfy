/** The backing storage the adapter reads through: a tree of entries keyed by
    resolved path, and the process's table of open descriptors. The os calls
    the adapter makes (open, lseek, read, close) are methods of Backing; the
    queries it makes (access, isdir, listdir, exists, stat) are functions of
    Tree. */
module Storage {
  import opened Paths
  import opened Host

  type byte = bv8

  /** What os.stat reports about an entry. The mode is a 32-bit mode_t;
      times are whole seconds. */
  datatype Stat = Stat(size: nat, mode: bv32, uid: nat, gid: nat, mtime: int, ctime: int)

  /** A directory lists its entries in the order the storage enumerates them;
      a regular file holds its bytes. */
  datatype Kind = Directory(listing: seq<string>) | RegularFile(content: seq<byte>)

  /** One entry of the tree. `granted` holds the access bits (R_OK, W_OK,
      X_OK) the kernel grants this process on the entry, whatever its
      reasons (mode bits, ownership, ACLs, a read-only mount). */
  datatype Node = Node(kind: Kind, stat: Stat, granted: bv32)

  /** The backing tree, seen as a map from resolved path to entry. */
  datatype Tree = Tree(nodes: map<Path, Node>) {

    /** os.path.exists: the same answer as os.access with F_OK (mask 0). */
    predicate Exists(p: Path)
      ensures Exists(p) <==> Permits(p, 0)
    {
      p in nodes
    }

    /** os.path.isdir: only an existing entry can be a directory. */
    predicate IsDir(p: Path)
      ensures IsDir(p) ==> Exists(p)
    {
      p in nodes && nodes[p].kind.Directory?
    }

    /** os.access: the mask holds only R_OK, W_OK and X_OK bits (the kernel
        rejects any other), the entry exists and every requested bit is
        granted. A missing entry grants nothing. */
    predicate Permits(p: Path, mask: bv32)
      ensures Permits(p, mask) ==> p in nodes && mask & !ACCESS_BITS == 0
    {
      mask & !ACCESS_BITS == 0 && p in nodes && mask & !nodes[p].granted == 0
    }

    /** os.listdir succeeds: the entry is a directory the process may read. */
    predicate CanList(p: Path)
      ensures CanList(p) ==> IsDir(p)
    {
      IsDir(p) && Permits(p, R_OK)
    }
  }

  /** An open descriptor: the entry it was opened on and its file position. */
  datatype OpenFile = OpenFile(path: Path, position: nat)

  /** The OSError an os call raises. */
  datatype OsError = BadDescriptor | IsADirectory | NotFound | PermissionDenied | Refused

  /** A value, or the OSError raised instead of returning it. */
  datatype Outcome<T> = Ok(value: T) | Raised(error: OsError)

  function Min(a: nat, b: nat): nat {
    if a <= b then a else b
  }

  /** The bytes a read of `size` bytes at `offset` returns from `content`. */
  function ReadSlice(content: seq<byte>, offset: nat, size: nat): (data: seq<byte>)
    ensures |data| <= size
    ensures offset >= |content| ==> data == []
    ensures offset < |content| ==> |data| == Min(size, |content| - offset)
    ensures forall i :: 0 <= i < |data| ==> offset + i < |content| && data[i] == content[offset + i]
  {
    if offset >= |content| then [] else content[offset..offset + Min(size, |content| - offset)]
  }

  /** Reading in two pieces, the second starting where the first ended,
      yields the same bytes as one read of the combined size. */
  lemma ReadsCompose(content: seq<byte>, offset: nat, first: nat, second: nat)
    ensures var head := ReadSlice(content, offset, first);
            head + ReadSlice(content, offset + |head|, second) == ReadSlice(content, offset, first + second)
  {
  }

  /** The descriptor numbers 0 to n. */
  function NumbersUpTo(n: nat): (s: set<nat>)
    ensures forall fd: nat :: fd in s <==> fd <= n
    ensures |s| == n + 1
  {
    if n == 0 then {0} else NumbersUpTo(n - 1) + {n}
  }

  /** A set holding every number from 0 to n has more than n members. */
  lemma CoversRangeIsLarge(used: set<nat>, n: nat)
    requires forall fd: nat :: fd <= n ==> fd in used
    ensures |used| > n
  {
    var range := NumbersUpTo(n);
    assert used == range + (used - range);
  }

  /** Some descriptor number up to |used| is free (pigeonhole). */
  lemma FreeDescriptorExists(used: set<nat>)
    ensures exists fd: nat :: fd <= |used| && fd !in used
  {
    if forall fd: nat :: fd <= |used| ==> fd in used {
      CoversRangeIsLarge(used, |used|);
      assert false;
    }
  }

  /** The storage and this process's descriptor table. */
  class Backing {
    var tree: Tree
    var descriptors: map<nat, OpenFile>

    /** Every open descriptor names an entry of the tree. */
    ghost predicate Valid()
      reads this
    {
      forall fd :: fd in descriptors ==> tree.Exists(descriptors[fd].path)
    }

    constructor (tree: Tree)
      ensures Valid() && this.tree == tree && descriptors == map[]
    {
      this.tree := tree;
      descriptors := map[];
    }

    /** os.open: succeeds when the entry exists and the kernel allows the
        open (`permitted` stands for permissions, descriptor limits and the
        flags, which the model does not see); the new descriptor is one that
        was not open before, positioned at 0. */
    method Open(p: Path, permitted: bool) returns (r: Outcome<nat>)
      requires Valid()
      modifies this`descriptors
      ensures Valid()
      ensures r.Ok? <==> permitted && tree.Exists(p)
      ensures r.Ok? ==> r.value !in old(descriptors) && descriptors == old(descriptors)[r.value := OpenFile(p, 0)]
      ensures r.Raised? ==> descriptors == old(descriptors)
    {
      if !tree.Exists(p) {
        return Raised(NotFound);
      }
      if !permitted {
        return Raised(Refused);
      }
      FreeDescriptorExists(descriptors.Keys);
      var fd: nat :| fd <= |descriptors.Keys| && fd !in descriptors.Keys;
      descriptors := descriptors[fd := OpenFile(p, 0)];
      r := Ok(fd);
    }

    /** os.lseek(fd, offset, SEEK_SET) */
    method Seek(fd: nat, offset: nat) returns (r: Outcome<()>)
      requires Valid()
      modifies this`descriptors
      ensures Valid()
      ensures fd !in old(descriptors) ==> r == Raised(BadDescriptor) && descriptors == old(descriptors)
      ensures fd in old(descriptors) ==>
                r == Ok(()) && descriptors == old(descriptors)[fd := old(descriptors)[fd].(position := offset)]
    {
      if fd !in descriptors {
        return Raised(BadDescriptor);
      }
      descriptors := descriptors[fd := descriptors[fd].(position := offset)];
      r := Ok(());
    }

    /** os.read(fd, size): the bytes from the current position on, at most
        `size` of them; the position advances past them. A directory cannot
        be read. */
    method ReadFd(fd: nat, size: nat) returns (r: Outcome<seq<byte>>)
      requires Valid()
      modifies this`descriptors
      ensures Valid()
      ensures fd !in old(descriptors) ==> r == Raised(BadDescriptor) && descriptors == old(descriptors)
      ensures fd in old(descriptors) && tree.nodes[old(descriptors)[fd].path].kind.Directory? ==>
                r == Raised(IsADirectory) && descriptors == old(descriptors)
      ensures fd in old(descriptors) && tree.nodes[old(descriptors)[fd].path].kind.RegularFile? ==>
                var f := old(descriptors)[fd];
                var data := ReadSlice(tree.nodes[f.path].kind.content, f.position, size);
                r == Ok(data) && descriptors == old(descriptors)[fd := f.(position := f.position + |data|)]
    {
      if fd !in descriptors {
        return Raised(BadDescriptor);
      }
      var f := descriptors[fd];
      match tree.nodes[f.path].kind
      case Directory(_) =>
        r := Raised(IsADirectory);
      case RegularFile(content) =>
        var data := ReadSlice(content, f.position, size);
        descriptors := descriptors[fd := f.(position := f.position + |data|)];
        r := Ok(data);
    }

    /** os.close(fd) */
    method Close(fd: nat) returns (r: Outcome<()>)
      requires Valid()
      modifies this`descriptors
      ensures Valid()
      ensures fd !in old(descriptors) ==> r == Raised(BadDescriptor) && descriptors == old(descriptors)
      ensures fd in old(descriptors) ==> r == Ok(()) && descriptors == old(descriptors) - {fd}
    {
      if fd !in descriptors {
        return Raised(BadDescriptor);
      }
      descriptors := descriptors - {fd};
      r := Ok(());
    }
  }
}
