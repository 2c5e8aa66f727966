/** Whether the listening socket on a port belongs to a process, decided from the rows of
    /proc/net/tcp and /proc/net/tcp6 and the links under /proc/<pid>/fd
    (go/listener_owner_linux.go). Files that cannot be opened and links that cannot be
    read are `None`; the port of an address that does not parse is `None`. */
module ListenerOwner {
  import opened Names
  import opened Text
  import P = Protocol

  type Files = seq<Option<seq<string>>>
  type Links = seq<Option<string>>

  /** The port of a local address, written in hexadecimal behind its last colon. */
  function LocalPort(local: string): Option<int> {
    var colon := LastIndex(local, ':');
    if colon < 0 then None else ParseHex32(local[colon + 1..])
  }

  /** The inode a row gives for the port: that of a socket in state LISTEN on it, whatever
      the host part of its address. */
  function RowInode(row: string, port: int): Option<string> {
    var fields := Fields(row);
    if |fields| >= 10 && fields[3] == "0A" && LocalPort(fields[1]) == Some(port) then Some(fields[9]) else None
  }

  function OptionSeq<T>(o: Option<T>): seq<T> {
    if o.Some? then [o.value] else []
  }

  function InodesOfRows(rows: seq<string>, port: int): seq<string> {
    if rows == [] then []
    else InodesOfRows(rows[..|rows| - 1], port) + OptionSeq(RowInode(rows[|rows| - 1], port))
  }

  /** The rows under the header line of a file. */
  function Rows(file: Option<seq<string>>): seq<string> {
    if file.None? || file.value == [] then [] else file.value[1..]
  }

  function InodesOf(files: Files, port: int): seq<string> {
    if files == [] then []
    else InodesOf(files[..|files| - 1], port) + InodesOfRows(Rows(files[|files| - 1]), port)
  }

  ghost predicate AnyOpened(files: Files) {
    exists file :: file in files && file.Some?
  }

  /** What the first `l` lines of a file give; the header line gives nothing. */
  function Scanned(lines: seq<string>, port: int, l: nat): seq<string>
    requires l <= |lines|
  {
    InodesOfRows(if l == 0 then [] else lines[1..l], port)
  }

  lemma OneMoreLine(lines: seq<string>, port: int, l: nat)
    requires l < |lines|
    ensures Scanned(lines, port, l + 1)
            == Scanned(lines, port, l) + if l == 0 then [] else OptionSeq(RowInode(lines[l], port))
  {
    hide RowInode;
    if l > 0 {
      assert lines[1..l + 1][..l - 1] == lines[1..l];
    }
  }

  lemma OneMoreFile(files: Files, port: int, f: nat)
    requires f < |files|
    ensures InodesOf(files[..f + 1], port) == InodesOf(files[..f], port) + InodesOfRows(Rows(files[f]), port)
    ensures AnyOpened(files[..f + 1]) <==> AnyOpened(files[..f]) || files[f].Some?
  {
    hide InodesOfRows, Rows;
    assert files[..f + 1][..f] == files[..f];
    assert files[..f + 1] == files[..f] + [files[f]];
  }

  /** The inner loop: the rows of one open file, its header line skipped. */
  method ScanRows(lines: seq<string>, port: int, seen: seq<string>) returns (inodes: seq<string>)
    ensures inodes == seen + Scanned(lines, port, |lines|)
  {
    inodes := seen;
    assert Scanned(lines, port, 0) == [];
    hide Scanned, Fields, LastIndex, ParseHex32;
    var first := true;
    for l := 0 to |lines|
      invariant first <==> l == 0
      invariant inodes == seen + Scanned(lines, port, l)
    {
      OneMoreLine(lines, port, l);
      if first {
        first := false;
        continue;
      }
      var fields := Fields(lines[l]);
      if |fields| < 10 || fields[3] != "0A" {
        continue;
      }
      var local := fields[1];
      var colon := LastIndex(local, ':');
      if colon < 0 {
        continue;
      }
      var got := ParseHex32(local[colon + 1..]);
      if got.None? || got.value != port {
        continue;
      }
      inodes := inodes + [fields[9]];
    }
  }

  lemma ScannedAll(lines: seq<string>, port: int)
    ensures Scanned(lines, port, |lines|) == InodesOfRows(Rows(Some(lines)), port)
  {
    if lines != [] {
      assert lines[1..|lines|] == lines[1..];
    }
  }

  method ListenSocketInodes(files: Files, port: int) returns (inodes: seq<string>, checked: bool)
    ensures inodes == InodesOf(files, port)
    ensures checked <==> AnyOpened(files)
  {
    inodes, checked := [], false;
    assert InodesOf(files[..0], port) == [] && !AnyOpened(files[..0]);
    hide InodesOf, AnyOpened;
    for f := 0 to |files|
      invariant inodes == InodesOf(files[..f], port)
      invariant checked <==> AnyOpened(files[..f])
    {
      OneMoreFile(files, port, f);
      if files[f].None? {
        continue;
      }
      checked := true;
      inodes := ScanRows(files[f].value, port, inodes);
      ScannedAll(files[f].value, port);
    }
    assert files[..|files|] == files;
  }

  // ----- what an inode in the result is -----

  ghost predicate RowOf(rows: seq<string>, port: int, inode: string) {
    exists row :: row in rows && RowInode(row, port) == Some(inode)
  }

  /** Some row of some file is a LISTEN row for the port with this inode. */
  ghost predicate Listening(files: Files, port: int, inode: string) {
    exists file :: file in files && RowOf(Rows(file), port, inode)
  }

  lemma {:induction false} InodesOfRowsAre(rows: seq<string>, port: int, inode: string)
    ensures inode in InodesOfRows(rows, port) <==> RowOf(rows, port, inode)
  {
    if rows != [] {
      hide RowInode;
      var before, last := rows[..|rows| - 1], rows[|rows| - 1];
      assert rows == before + [last];
      InodesOfRowsAre(before, port, inode);
    }
  }

  lemma {:induction false} InodesAreListening(files: Files, port: int, inode: string)
    ensures inode in InodesOf(files, port) <==> Listening(files, port, inode)
  {
    if files != [] {
      hide InodesOfRows, RowOf, Rows;
      var before, last := files[..|files| - 1], files[|files| - 1];
      assert files == before + [last];
      InodesAreListening(before, port, inode);
      InodesOfRowsAre(Rows(last), port, inode);
    }
  }

  function SocketLink(inode: string): string {
    "socket:[" + inode + "]"
  }

  /** An open descriptor of the process is the socket some LISTEN row names. */
  ghost predicate Shares(files: Files, port: int, links: Links) {
    exists inode :: Listening(files, port, inode) && Some(SocketLink(inode)) in links
  }

  lemma NothingListening(files: Files, port: int)
    ensures InodesOf(files, port) == [] <==> forall inode :: !Listening(files, port, inode)
  {
    hide InodesOf, Listening;
    forall inode ensures inode in InodesOf(files, port) <==> Listening(files, port, inode) {
      InodesAreListening(files, port, inode);
    }
    if InodesOf(files, port) != [] {
      assert Listening(files, port, InodesOf(files, port)[0]);
    }
  }

  /** The two loops over descriptors and inodes. */
  method AnyLinkTo(links: Links, inodes: seq<string>) returns (found: bool)
    ensures found <==> exists inode :: inode in inodes && Some(SocketLink(inode)) in links
  {
    hide SocketLink;
    for e := 0 to |links|
      invariant forall k, inode :: 0 <= k < e && inode in inodes ==> links[k] != Some(SocketLink(inode))
    {
      if links[e].None? {
        continue;
      }
      for i := 0 to |inodes|
        invariant forall k :: 0 <= k < i ==> links[e].value != SocketLink(inodes[k])
      {
        if links[e].value == SocketLink(inodes[i]) {
          return true;
        }
      }
    }
    return false;
  }

  /** /proc could be asked. */
  ghost predicate Known(port: Option<int>, pid: int, files: Files, links: Option<Links>) {
    && pid > 0 && port.Some? && AnyOpened(files)
    && (links.Some? || forall inode :: !Listening(files, port.value, inode))
  }

  ghost predicate OwnedBy(port: Option<int>, pid: int, files: Files, links: Option<Links>) {
    Known(port, pid, files, links) && links.Some? && Shares(files, port.value, links.value)
  }

  /** The answer is known unless /proc could not be asked, and it is yes exactly when the
      process holds a socket that listens on the port. */
  method ListenerOwnedByPid(port: Option<int>, pid: int, files: Files, links: Option<Links>)
    returns (owned: bool, known: bool)
    ensures known <==>
            && pid > 0 && port.Some? && AnyOpened(files)
            && (links.Some? || forall inode :: !Listening(files, port.value, inode))
    ensures owned <==> known && links.Some? && Shares(files, port.value, links.value)
    ensures (known <==> Known(port, pid, files, links)) && (owned <==> OwnedBy(port, pid, files, links))
  {
    hide AnyOpened, Listening, InodesOf;
    if pid <= 0 || port.None? {
      return false, false;
    }
    var inodes, checked := ListenSocketInodes(files, port.value);
    if !checked {
      return false, false;
    }
    NothingListening(files, port.value);
    if |inodes| == 0 {
      return false, true;
    }
    if links.None? {
      return false, false;
    }
    forall inode ensures inode in inodes <==> Listening(files, port.value, inode) {
      InodesAreListening(files, port.value, inode);
    }
    owned := AnyLinkTo(links.value, inodes);
    known := true;
  }

  /** `dynamicAddressOwned`: an unanswered question counts as yes. */
  method DynamicAddressOwned(started: bool, port: Option<int>, pid: int, files: Files, links: Option<Links>)
    returns (accepted: bool)
    ensures accepted <==> started && (Known(port, pid, files, links) ==> OwnedBy(port, pid, files, links))
  {
    if !started {
      return false;
    }
    var owned, known := ListenerOwnedByPid(port, pid, files, links);
    if !known {
      return true;
    }
    return owned;
  }

  /** The kernel's own rendering of a port is read back as that port. */
  lemma KernelPortReadBack(host: string, port: nat)
    requires port < 0x1_0000
    ensures LocalPort(host + ":" + PaddedHex(port, 4)) == Some(port)
  {
    assert Pow16(4) == 0x1_0000 by {
      assert Pow16(3) == 0x1000 && Pow16(2) == 0x100;
    }
    PaddedHexReadBack(port, 4);
    hide Pow16, PaddedHex, HexValue;
    var hex := PaddedHex(port, 4);
    var local := host + ":" + hex;
    LastColon(host, hex);
    assert local[|host| + 1..] == hex;
  }

  lemma LastColon(host: string, tail: string)
    requires ':' !in tail
    ensures LastIndex(host + ":" + tail, ':') == |host|
  {
    hide LastIndex;
    var local := host + ":" + tail;
    var colon := LastIndex(local, ':');
    assert local[|host|] == ':';
    assert local[|host| + 1..] == tail;
    assert forall k :: |host| < k < |local| ==> local[k] in local[|host| + 1..];
  }

  /** A row as the kernel writes it, ten words or more: the second is the local address, the
      fourth the state, the tenth the inode. It gives its inode for its own local port and
      only in state 0A, whatever the remote address and the other columns say. */
  lemma WrittenRowInode(gaps: seq<string>, words: seq<string>, host: string, local: nat, port: int)
    requires |gaps| == |words| >= 10 && Separates(gaps) && forall i :: 0 <= i < |words| ==> IsWord(words[i])
    requires local < 0x1_0000 && words[1] == host + ":" + PaddedHex(local, 4)
    ensures RowInode(Written(gaps, words), port) == if words[3] == "0A" && port == local then Some(words[9]) else None
  {
    FieldsOfWritten(gaps, words);
    KernelPortReadBack(host, local);
    hide Fields, LocalPort, PaddedHex, Written;
  }

  /** A shorter row gives nothing. */
  lemma ShortRowInode(gaps: seq<string>, words: seq<string>, port: int)
    requires |gaps| == |words| < 10 && Separates(gaps) && forall i :: 0 <= i < |words| ==> IsWord(words[i])
    ensures RowInode(Written(gaps, words), port) == None
  {
    FieldsOfWritten(gaps, words);
    hide Fields, Written;
  }

  /** The first line of a file is its header, whatever it looks like. */
  lemma HeaderGivesNothing(header: string, rows: seq<string>, port: int, inode: string)
    ensures Listening([Some([header] + rows)], port, inode) <==> exists row :: row in rows && RowInode(row, port) == Some(inode)
  {
    hide RowInode;
    assert ([header] + rows)[1..] == rows;
    assert Rows(Some([header] + rows)) == rows;
    if exists row :: row in rows && RowInode(row, port) == Some(inode) {
      assert Some([header] + rows) in [Some([header] + rows)] && RowOf(rows, port, inode);
    }
  }

  /** The columns of such a row. */
  const COLUMNS := ["0:", "0100007F:63DD", "00000000:0000", "0A", "00000000:00000000", "00:00000000", "00000000", "0", "0", "4711"]
  const GAPS := ["  ", " ", " ", " ", " ", " ", " ", " ", "        ", " "]

  lemma ColumnsAreWords()
    ensures forall i :: 0 <= i < |COLUMNS| ==> IsWord(COLUMNS[i])
    ensures |GAPS| == |COLUMNS| == 10 && Separates(GAPS)
  {
  }

  function LoopbackText(): string {
    Written(GAPS, COLUMNS)
  }

  lemma LoopbackRow(port: int)
    ensures RowInode(LoopbackText(), port) == if port == 25565 then Some("4711") else None
  {
    ColumnsAreWords();
    Port25565();
    assert COLUMNS[1] == "0100007F" + ":" + PaddedHex(25565, 4) && COLUMNS[3] == "0A" && COLUMNS[9] == "4711";
    hide PaddedHex, Written, RowInode, Fields, IsWord, Separates, COLUMNS, GAPS;
    WrittenRowInode(GAPS, COLUMNS, "0100007F", 25565, port);
  }

  lemma SharesOneRow(header: string, row: string, port: int, links: Links)
    ensures Shares([Some([header, row]), None], port, links)
            <==> RowInode(row, port).Some? && Some("socket:[" + RowInode(row, port).value + "]") in links
  {
    hide RowInode, Listening;
    forall inode ensures Listening([Some([header, row]), None], port, inode) <==> RowInode(row, port) == Some(inode) {
      OneRow(header, row, port, inode);
    }
    if RowInode(row, port).Some? {
      var inode := RowInode(row, port).value;
      assert SocketLink(inode) == "socket:[" + inode + "]";
      assert Listening([Some([header, row]), None], port, inode);
    }
  }

  /** A child that listens on 127.0.0.1:25565, as /proc shows it, owns that port and no other:
      the row's second column in hexadecimal, its inode among the child's links. */
  lemma LoopbackListenerIsShared(header: string, port: int, links: Links)
    ensures Shares([Some([header, LoopbackText()]), None], port, links)
            <==> port == 25565 && Some("socket:[4711]") in links
  {
    LoopbackRow(port);
    hide LoopbackText, RowInode, Shares;
    SharesOneRow(header, LoopbackText(), port, links);
    assert "socket:[" + "4711" + "]" == "socket:[4711]";
  }

  lemma OneRow(header: string, row: string, port: int, inode: string)
    ensures Listening([Some([header, row]), None], port, inode) <==> RowInode(row, port) == Some(inode)
  {
    hide RowInode;
    var file: Option<seq<string>>, files: Files := Some([header, row]), [Some([header, row]), None];
    assert [header, row][1..] == [row] && Rows(file) == [row] && Rows(None) == [];
    assert RowOf(Rows(file), port, inode) <==> RowInode(row, port) == Some(inode) by {
      assert row in Rows(file);
    }
    assert file in files && forall f :: f in files ==> f == file || f == None;
  }

  lemma Port25565()
    ensures PaddedHex(25565, 4) == "63DD"
  {
    assert PaddedHex(25565 / 16 / 16 / 16, 1) == "6";
    assert PaddedHex(25565 / 16 / 16, 2) == "63";
    assert PaddedHex(25565 / 16, 3) == "63D";
  }

  ghost predicate OneListener(files: Files, port: int) {
    forall i, j :: Listening(files, port, i) && Listening(files, port, j) ==> i == j
  }

  /** With one listening socket to a port, two processes that share no open socket are
      never both told that they own the port's listener. */
  lemma OwnersShareTheSocket(files: Files, port: int, linksA: Links, linksB: Links)
    requires OneListener(files, port) && Shares(files, port, linksA) && Shares(files, port, linksB)
    ensures exists link :: Some(link) in linksA && Some(link) in linksB
  {
    hide Listening, SocketLink;
    var i :| Listening(files, port, i) && Some(SocketLink(i)) in linksA;
    var j :| Listening(files, port, j) && Some(SocketLink(j)) in linksB;
    assert i == j;
  }

  // ----- the answer and the protocol's picture of the ports -----

  datatype Socket = Socket(port: int, holder: P.Holder)

  /** /proc shows the listening sockets, by inode, as they are. */
  ghost predicate Shows(files: Files, sockets: map<string, Socket>) {
    forall port, inode :: Listening(files, port, inode) <==> inode in sockets && sockets[inode].port == port
  }

  /** Of the listening sockets, exactly those of child `a` are among these descriptors. */
  ghost predicate Descriptors(links: Links, sockets: map<string, Socket>, a: nat) {
    forall inode :: inode in sockets ==> (Some(SocketLink(inode)) in links <==> sockets[inode].holder == P.ChildOf(a))
  }

  /** One listener to a port: the sockets are a map from ports to holders. */
  ghost predicate OnePerPort(listener: map<int, P.Holder>, sockets: map<string, Socket>) {
    && (forall inode :: inode in sockets ==> Get(listener, sockets[inode].port) == Some(sockets[inode].holder))
    && (forall port :: port in listener ==> exists inode :: inode in sockets && sockets[inode].port == port)
  }

  /** Then the answer is the test the protocol makes: is this child the port's holder? */
  lemma OwnedIsHolder(files: Files, links: Links, sockets: map<string, Socket>, listener: map<int, P.Holder>, port: int, a: nat)
    requires Shows(files, sockets) && Descriptors(links, sockets, a) && OnePerPort(listener, sockets)
    ensures Shares(files, port, links) <==> Get(listener, port) == Some(P.ChildOf(a))
  {
    hide Listening, SocketLink;
    if Get(listener, port) == Some(P.ChildOf(a)) {
      var inode :| inode in sockets && sockets[inode].port == port;
      assert Listening(files, port, inode);
    }
    if inode :| Listening(files, port, inode) && Some(SocketLink(inode)) in links {
      assert inode in sockets;
    }
  }
}
