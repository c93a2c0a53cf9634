/** A client of the adapter: a root R holding the file a.txt ("hello"), the
    directory sub and the directory locked that the process may not read,
    driven through the requests a session makes. Every reply below follows
    from the handlers' contracts alone. */
module Scenario {
  import opened Host
  import opened Paths
  import opened Storage
  import opened Passthrough

  const HOST := Constants(13, 2, 0)
  const HELLO: seq<byte> := [0x68, 0x65, 0x6c, 0x6c, 0x6f]
  const DIR_STAT := Stat(4096, 0x41ED, 1000, 1000, 1700000000, 1700000000)   // drwxr-xr-x
  const FILE_STAT := Stat(5, 0x81A4, 1000, 1000, 1700000000, 1700000000)     // -rw-r--r--

  /** os.path.join("R", "") is "R/", so the root directory is keyed "R/". */
  const SAMPLE := Tree(map[
    "R/" := Node(Directory(["a.txt", "locked", "sub"]), DIR_STAT, 7),
    "R/a.txt" := Node(RegularFile(HELLO), FILE_STAT, 6),
    "R/locked" := Node(Directory(["secret"]), DIR_STAT, 1),
    "R/sub" := Node(Directory([]), DIR_STAT, 7)
  ])

  method Mount() returns (fs: ReadonlyPassthrough)
    ensures fresh(fs) && fresh(fs.backing) && fs.basePath == "R"
    ensures fs.backing.Valid() && fs.backing.tree == SAMPLE && fs.backing.descriptors == map[]
  {
    var backing := new Backing(SAMPLE);
    fs := new ReadonlyPassthrough("R", backing);
  }

  method ListRoot() {
    var fs := Mount();
    assert FullPath("R", "/") == "R/";
    var entries := fs.Readdir("/");
    assert entries.Ok? && entries.value.0 == 0;
    var names := entries.value.1;
    assert names[..2] == [".", ".."];
    assert names[2..] == ["a.txt", "locked", "sub"];
    assert |names| == 5;
    assert names[2] == "a.txt" && names[3] == "locked" && names[4] == "sub";
  }

  method ListUnreadable() {
    var fs := Mount();
    assert FullPath("R", "/locked") == "R/locked";
    // granted 1 (X_OK only): os.listdir raises
    assert fs.Readdir("/locked") == Raised(PermissionDenied);
    assert FullPath("R", "/a.txt") == "R/a.txt";
    assert fs.Readdir("/a.txt") == Ok((-1, []));
  }

  method ReadHello() {
    var fs := Mount();
    var info := new FileInfo(0);
    assert FullPath("R", "/a.txt") == "R/a.txt";
    var status := fs.Open(HOST, "/a.txt", info, true);
    assert status == 0;
    assert fs.backing.descriptors[info.handle] == OpenFile("R/a.txt", 0);
    assert fs.backing.tree.nodes["R/a.txt"].kind.content == HELLO;
    assert ReadSlice(HELLO, 0, 10) == HELLO[0..5] == HELLO;
    var got := fs.Read("/a.txt", 10, 0, info);
    assert got == Ok((5, HELLO));
    got := fs.Read("/a.txt", 10, 3, info);
    assert HELLO[3..] == [0x6c, 0x6f];
    assert got == Ok((2, [0x6c, 0x6f]));
    var closed := fs.Release("/a.txt", info);
    assert closed == Ok(());
    assert fs.backing.descriptors == map[];
    // the released handle is gone: using it again raises
    got := fs.Read("/a.txt", 10, 0, info);
    assert got == Raised(BadDescriptor);
  }

  method RefuseWrites() {
    var fs := Mount();
    var writer := new FileInfo(2);  // O_RDWR
    var status := fs.Open(HOST, "/a.txt", writer, true);
    assert status == -13;
    var reader := new FileInfo(0);
    status := fs.Open(HOST, "", reader, true);  // path[0] fails: ENOENT
    assert status == -2;
    assert fs.Access(HOST, "/a.txt", W_OK) == -13;
    assert FullPath("R", "/a.txt") == "R/a.txt";
    assert fs.Access(HOST, "/a.txt", 4) == 0;  // R_OK
    assert fs.Access(HOST, "/a.txt", 8) == -13;  // not an access bit
  }

  method StatEntries() {
    var fs := Mount();
    assert FullPath("R", "/missing") == "R/missing";
    assert fs.Getattr(HOST, "/missing") == AttrError(-2);
    assert FullPath("R", "/a.txt") == "R/a.txt";
    var attrs := fs.Getattr(HOST, "/a.txt");
    assert attrs.AttrOk? && attrs.attrs.size == 5 && attrs.attrs.uid == 1000;
    assert attrs.attrs.mode == 0x8124;  // -r--r--r--
  }

  method ReadDirectory() {
    var fs := Mount();
    var info := new FileInfo(0);
    assert FullPath("R", "/sub") == "R/sub";
    var status := fs.Open(HOST, "/sub", info, true);
    assert status == 0;
    var got := fs.Read("/sub", 10, 0, info);
    assert got == Raised(IsADirectory);
  }
}
