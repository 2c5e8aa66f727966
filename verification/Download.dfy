/** The checksum lookup and the content-addressed cache (go/download.go). The file system
    is a map from paths to contents, the hash an arbitrary function; what the network and
    the operating system answer is a parameter. Nobody else writes while a call runs. */
module Download {
  import opened Names
  import opened Text

  datatype Error = NoChecksums | NotListed | InvalidChecksum | NotMade | NotFetched | NotHashed | Mismatch | NotRenamed

  const SHA256_HEX := 64

  /** `hex.DecodeString` accepts digits of either case and an even number of them. */
  predicate IsSha256Hex(s: string) {
    |s| == SHA256_HEX && forall i :: 0 <= i < |s| ==> HexDigit(s[i]).Some?
  }

  /** The digest a line lists for the asset: two fields, the second naming the asset, with
      an optional star before it and any directories. */
  function Listed(line: string, asset: string): Option<string> {
    var fields := Fields(line);
    if |fields| != 2 then None
    else
      var name := TrimPrefix(fields[1], "*");
      if name == asset || HasSuffix(name, "/" + asset) then Some(fields[0]) else None
  }

  ghost predicate FirstListed(lines: seq<string>, asset: string, i: int) {
    && 0 <= i < |lines| && Listed(lines[i], asset).Some?
    && forall j :: 0 <= j < i ==> Listed(lines[j], asset).None?
  }

  /** The first line that lists the asset decides, even when its digest is malformed. */
  function Expected(lines: seq<string>, asset: string): Result<string, Error> {
    if lines == [] then Err(NotListed)
    else if Listed(lines[0], asset).Some? then
      var sha := Lower(Listed(lines[0], asset).value);
      if IsSha256Hex(sha) then Ok(sha) else Err(InvalidChecksum)
    else Expected(lines[1..], asset)
  }

  /** The digest the checksum file, if it could be fetched, gives for the asset. */
  function Wanted(body: Option<string>, asset: string): Result<string, Error> {
    if body.None? then Err(NoChecksums) else Expected(Split(body.value, '\n'), asset)
  }

  method FetchExpectedSha(body: Option<string>, asset: string) returns (r: Result<string, Error>)
    ensures r == Wanted(body, asset)
  {
    if body.None? {
      return Err(NoChecksums);
    }
    var lines := Split(body.value, '\n');
    hide Split, Fields, IsSha256Hex, Lower, HasSuffix;
    for l := 0 to |lines|
      invariant Expected(lines[l..], asset) == Expected(lines, asset)
    {
      var fields := Fields(lines[l]);
      if |fields| != 2 {
        continue;
      }
      var name := TrimPrefix(fields[1], "*");
      if name == asset || HasSuffix(name, "/" + asset) {
        var sha := Lower(fields[0]);
        if !IsSha256Hex(sha) {
          return Err(InvalidChecksum);
        }
        return Ok(sha);
      }
    }
    r := Err(NotListed);
  }

  lemma {:induction false} ExpectedIsFirst(lines: seq<string>, asset: string)
    ensures Expected(lines, asset) == Err(NotListed) <==> forall line :: line in lines ==> Listed(line, asset).None?
    ensures Expected(lines, asset) != Err(NotListed) ==>
              exists i :: FirstListed(lines, asset, i)
                          && var sha := Lower(Listed(lines[i], asset).value);
                             Expected(lines, asset) == if IsSha256Hex(sha) then Ok(sha) else Err(InvalidChecksum)
  {
    hide Listed, IsSha256Hex, Lower;
    if lines == [] {
    } else if Listed(lines[0], asset).Some? {
      assert FirstListed(lines, asset, 0);
    } else {
      var rest := lines[1..];
      assert lines == [lines[0]] + rest;
      ExpectedIsFirst(rest, asset);
      if Expected(rest, asset) != Err(NotListed) {
        var i :| FirstListed(rest, asset, i)
                 && var sha := Lower(Listed(rest[i], asset).value);
                    Expected(rest, asset) == if IsSha256Hex(sha) then Ok(sha) else Err(InvalidChecksum);
        assert forall j :: 1 <= j < |lines| ==> lines[j] == rest[j - 1];
        assert FirstListed(lines, asset, i + 1);
      }
    }
  }

  lemma TwoFields(first: string, gap: string, second: string)
    requires IsWord(first) && IsGap(gap) && gap != "" && IsWord(second)
    ensures Fields(first + (gap + second)) == [first, second]
  {
    var rest := gap + second;
    assert IsSpace(rest[0]);
    FieldsOfWord("", first, rest);
    FieldsOfWord(gap, second, "");
    GapIsNoField("");
    hide IsSpace, Fields;
    assert "" + (first + rest) == first + rest;
    assert gap + (second + "") == rest;
  }

  /** A path as `sha256sum` may write it: a star, directories, the asset. */
  function ListedName(star: bool, directory: string, asset: string): string {
    (if star then "*" else "") + (directory + asset)
  }

  lemma StarTrimmed(star: bool, path: string)
    requires path != "" && path[0] != '*'
    ensures TrimPrefix((if star then "*" else "") + path, "*") == path
  {
    if star {
      assert ("*" + path)[..1] == "*" && ("*" + path)[1..] == path;
    } else {
      assert "" + path == path;
      assert "*"[0] == '*';
    }
  }

  lemma PathNamesAsset(directory: string, asset: string)
    requires directory == "" || directory[|directory| - 1] == '/'
    ensures directory + asset == asset || HasSuffix(directory + asset, "/" + asset)
  {
    var path := directory + asset;
    if directory == "" {
      assert path == asset;
    } else {
      assert path[|path| - |"/" + asset|..] == "/" + asset;
    }
  }

  /** A line with a digest, a gap and such a path is read back as that digest. */
  lemma WrittenLineIsListed(digest: string, gap: string, star: bool, directory: string, asset: string)
    requires IsWord(digest) && IsGap(gap) && gap != "" && IsWord(directory + asset)
    requires directory == "" || directory[|directory| - 1] == '/'
    requires (directory + asset)[0] != '*'
    ensures Listed(digest + (gap + ListedName(star, directory, asset)), asset) == Some(digest)
  {
    var name := ListedName(star, directory, asset);
    assert IsWord(name);
    StarTrimmed(star, directory + asset);
    PathNamesAsset(directory, asset);
    assert TrimPrefix(name, "*") == directory + asset;
    hide Fields, IsWord, IsGap, TrimPrefix, HasSuffix, ListedName;
    TwoFields(digest, gap, name);
  }

  /** The digits of a SHA-256 digest: sixty-four of them, in either case. */
  predicate IsDigest(s: string) {
    |s| == 64 && forall i :: 0 <= i < |s| ==> '0' <= s[i] <= '9' || 'a' <= s[i] <= 'f' || 'A' <= s[i] <= 'F'
  }

  lemma DigestIff(s: string)
    ensures IsSha256Hex(s) <==> IsDigest(s)
    ensures IsSha256Hex(Lower(s)) <==> IsDigest(s)
  {
    forall c ensures HexDigit(c).Some? <==> '0' <= c <= '9' || 'a' <= c <= 'f' || 'A' <= c <= 'F' {
    }
    forall c ensures HexDigit(LowerChar(c)).Some? <==> HexDigit(c).Some? {
    }
    hide HexDigit, LowerChar;
    assert |Lower(s)| == |s| && forall i :: 0 <= i < |s| ==> Lower(s)[i] == LowerChar(s[i]);
  }

  predicate IsDirectory(d: string) {
    d == "" || d[|d| - 1] == '/'
  }

  lemma AssetOfPath(name: string, asset: string)
    ensures name == asset || HasSuffix(name, "/" + asset) <==> exists d :: IsDirectory(d) && name == d + asset
  {
    if name == asset {
      assert IsDirectory("") && name == "" + asset;
    }
    if HasSuffix(name, "/" + asset) {
      var d := name[..|name| - |asset|];
      assert name[|name| - |"/" + asset|..][0] == '/' && name[|name| - |"/" + asset|..][1..] == asset;
      assert IsDirectory(d) && name == d + asset;
    }
    if d :| IsDirectory(d) && name == d + asset {
      PathNamesAsset(d, asset);
    }
  }

  lemma TrimmedStar(field: string, name: string)
    ensures TrimPrefix(field, "*") == name
            <==> field == "*" + name || (field == name && (field == "" || field[0] != '*'))
  {
    if field != "" && field[0] == '*' {
      assert field[..1] == "*" && field == "*" + field[1..];
    }
    assert "*"[0] == '*';
  }

  /** A line lists the asset exactly when it has two fields and the second is the asset, in
      any directory, behind at most one star; it then lists its first field. */
  lemma ListedIff(line: string, asset: string, digest: string)
    ensures Listed(line, asset) == Some(digest) <==>
              && |Fields(line)| == 2 && Fields(line)[0] == digest
              && exists d, star ::
                   && IsDirectory(d) && Fields(line)[1] == ListedName(star, d, asset)
                   && (!star ==> d + asset == "" || (d + asset)[0] != '*')
  {
    if |Fields(line)| == 2 {
      var field := Fields(line)[1];
      var name := TrimPrefix(field, "*");
      TrimmedStar(field, name);
      AssetOfPath(name, asset);
      hide Fields, TrimPrefix, HasSuffix;
      if d :| IsDirectory(d) && name == d + asset {
        assert field == ListedName(field == "*" + name, d, asset);
      }
      if d, star :| IsDirectory(d) && field == ListedName(star, d, asset) && (!star ==> d + asset == "" || (d + asset)[0] != '*') {
        TrimmedStar(field, d + asset);
      }
    }
  }

  /** A written checksum file, lines joined by newlines, is read back: the first line that
      lists the asset gives its digest in lower case, or an error if that is not one. */
  lemma WrittenFileIsRead(lines: seq<string>, asset: string, i: int)
    requires FirstListed(lines, asset, i) && forall k :: 0 <= k < |lines| ==> '\n' !in lines[k]
    ensures var digest := Listed(lines[i], asset).value;
            Wanted(Some(Join(lines, "\n")), asset) == if IsDigest(digest) then Ok(Lower(digest)) else Err(InvalidChecksum)
  {
    SplitJoin(lines, '\n');
    DigestIff(Listed(lines[i], asset).value);
    hide Split, Join, Listed, IsSha256Hex, IsDigest, Lower;
    ExpectedAt(lines, asset, i);
  }

  lemma {:induction false} ExpectedAt(lines: seq<string>, asset: string, i: int)
    requires FirstListed(lines, asset, i)
    ensures var sha := Lower(Listed(lines[i], asset).value);
            Expected(lines, asset) == if IsSha256Hex(sha) then Ok(sha) else Err(InvalidChecksum)
    decreases i
  {
    hide Listed, IsSha256Hex, Lower;
    if i > 0 {
      assert Listed(lines[0], asset).None?;
      assert forall j :: 0 <= j < i - 1 ==> lines[1..][j] == lines[j + 1];
      ExpectedAt(lines[1..], asset, i - 1);
    }
  }

  // ----- the cache -----

  type Files = map<string, string>

  function VerifiedPath(dir: string, asset: string, sha: string): string {
    dir + "/" + sha + "/" + asset
  }

  /** `os.CreateTemp` next to the cached path; only the random part varies. */
  function TempPath(cached: string, random: string): string {
    cached + "." + random + ".tmp"
  }

  /** What one call meets: whether an existing cache file can be read, the directory made,
      a fresh temporary file created (`None` when not), what the transfer leaves in that
      file and whether it is complete, and whether reading back, renaming and removing work. */
  datatype Weather = Weather(
    cacheReadable: bool, dirMade: bool, random: Option<string>,
    written: string, fetched: bool, readBack: bool, renamed: bool, removed: bool)

  /** A temporary file is created exclusively: no file of that name was there. */
  predicate Fresh(files: Files, cached: string, w: Weather) {
    w.random.Some? ==> TempPath(cached, w.random.value) !in files
  }

  predicate CacheHit(files: Files, cached: string, sha: string, hash: string -> string, w: Weather) {
    cached in files && w.cacheReadable && hash(files[cached]) == sha
  }

  function Discard(files: Files, path: string, w: Weather): Files {
    if w.removed then files - {path} else files
  }

  /** The call without a usable cache entry. */
  function Fetch(files: Files, cached: string, sha: string, hash: string -> string, w: Weather): (Files, Result<string, Error>) {
    if !w.dirMade || w.random.None? then (files, Err(NotMade))
    else
      var temp := TempPath(cached, w.random.value);
      var files' := files[temp := w.written];
      if !w.fetched then (Discard(files', temp, w), Err(NotFetched))
      else if !w.readBack then (Discard(files', temp, w), Err(NotHashed))
      else if hash(w.written) != sha then (Discard(files', temp, w), Err(Mismatch))
      else if !w.renamed then (Discard(files', temp, w), Err(NotRenamed))
      else ((files' - {temp})[cached := w.written], Ok(cached))
  }

  function Outcome(files: Files, cached: string, sha: string, hash: string -> string, w: Weather): (Files, Result<string, Error>) {
    if CacheHit(files, cached, sha, hash, w) then (files, Ok(cached)) else Fetch(files, cached, sha, hash, w)
  }

  class Disk {
    var files: Files

    constructor ()
      ensures files == map[]
    {
      files := map[];
    }

    method Remove(path: string, w: Weather)
      modifies this
      ensures files == Discard(old(files), path, w)
    {
      if w.removed {
        files := files - {path};
      }
    }

    /** Lines 69 to 104: fetch into a temporary file, check it, rename it into place. */
    method FetchAsset(cached: string, sha: string, hash: string -> string, w: Weather) returns (r: Result<string, Error>)
      modifies this
      ensures files == Fetch(old(files), cached, sha, hash, w).0
      ensures r == Fetch(old(files), cached, sha, hash, w).1
    {
      if !w.dirMade || w.random.None? {
        return Err(NotMade);
      }
      var temp := TempPath(cached, w.random.value);
      files := files[temp := ""];
      files := files[temp := w.written];
      assert files == old(files)[temp := w.written];
      if !w.fetched {
        Remove(temp, w);
        return Err(NotFetched);
      }
      if !w.readBack {
        Remove(temp, w);
        return Err(NotHashed);
      }
      var gotSha := hash(files[temp]);
      if gotSha != sha {
        Remove(temp, w);
        return Err(Mismatch);
      }
      if !w.renamed {
        Remove(temp, w);
        return Err(NotRenamed);
      }
      var content := files[temp];
      files := files - {temp};
      files := files[cached := content];
      r := Ok(cached);
    }

    /** From line 49 on: the asset name and the version are already decided. */
    method DownloadAsset(dir: string, asset: string, checksums: Option<string>, hash: string -> string, w: Weather)
      returns (r: Result<string, Error>)
      modifies this
      ensures match Wanted(checksums, asset)
              case Err(e) => r == Err(e) && files == old(files)
              case Ok(sha) =>
                var (after, result) := Outcome(old(files), VerifiedPath(dir, asset, sha), sha, hash, w);
                files == after && r == result
    {
      hide Wanted, VerifiedPath, Fetch;
      var expected := FetchExpectedSha(checksums, asset);
      if expected.Err? {
        return Err(expected.error);
      }
      var sha := expected.ok;
      var cached := VerifiedPath(dir, asset, sha);
      if cached in files && w.cacheReadable {
        var sum := hash(files[cached]);
        if sum == sha {
          return Ok(cached);
        }
      }
      r := FetchAsset(cached, sha, hash, w);
    }
  }

  // ----- what a call may do to the cache -----

  ghost predicate Verified(files: Files, path: string, sha: string, hash: string -> string) {
    path in files && hash(files[path]) == sha
  }

  /** A returned path is the content-addressed one and holds content with the expected
      digest; this happens exactly when the cache hits or a fetched file verifies. */
  lemma ReturnedIsVerified(files: Files, cached: string, sha: string, hash: string -> string, w: Weather)
    ensures var (after, r) := Outcome(files, cached, sha, hash, w);
            && (r.Ok? ==> r.ok == cached && Verified(after, cached, sha, hash))
            && (r.Ok? <==> (cached in files && w.cacheReadable && hash(files[cached]) == sha)
                           || (w.dirMade && w.random.Some? && w.fetched && w.readBack && hash(w.written) == sha && w.renamed))
  {
  }

  /** Every failing call leaves the cached path as it was, present or absent; no call
      touches any path but the cached one and its own temporary file. */
  lemma FailureLeavesCache(files: Files, cached: string, sha: string, hash: string -> string, w: Weather, path: string)
    requires Fresh(files, cached, w)
    ensures var (after, r) := Outcome(files, cached, sha, hash, w);
            && (path in files && (path != cached || r.Err?) ==> Get(after, path) == Get(files, path))
            && (path !in files && path in after ==>
                  (path == cached && r.Ok?) || (w.random.Some? && path == TempPath(cached, w.random.value)))
            && (cached !in files && r.Err? ==> cached !in after)
            && (r.Err? && w.removed ==> after == files)
            && (r.Ok? ==> after == files || after == files[cached := w.written])
            && (cached in files && w.cacheReadable && hash(files[cached]) == sha ==> after == files)
  {
    if w.random.Some? {
      assert |TempPath(cached, w.random.value)| > |cached|;
    }
  }

  /** Which step of the fetch failed, when the cache does not serve the asset. */
  lemma FailureCauses(files: Files, cached: string, sha: string, hash: string -> string, w: Weather)
    requires !(cached in files && w.cacheReadable && hash(files[cached]) == sha)
    ensures var r := Outcome(files, cached, sha, hash, w).1;
            && (r == Err(NotMade) <==> !w.dirMade || w.random.None?)
            && (r == Err(NotFetched) <==> w.dirMade && w.random.Some? && !w.fetched)
            && (r == Err(NotHashed) <==> w.dirMade && w.random.Some? && w.fetched && !w.readBack)
            && (r == Err(Mismatch) <==> w.dirMade && w.random.Some? && w.fetched && w.readBack && hash(w.written) != sha)
            && (r == Err(NotRenamed) <==> w.dirMade && w.random.Some? && w.fetched && w.readBack && hash(w.written) == sha && !w.renamed)
  {
  }

  lemma LastSlash(a: string, x: string, b: string, y: string)
    requires a + "/" + x == b + "/" + y && '/' !in x && '/' !in y
    ensures x == y && a == b
  {
    var s := a + "/" + x;
    assert s[|a|] == '/' && s[|a| + 1..] == x && s[..|a|] == a;
    assert s[|b|] == '/' && s[|b| + 1..] == y && s[..|b|] == b by {
      var t := b + "/" + y;
      assert t[|b|] == '/' && t[|b| + 1..] == y && t[..|b|] == b;
    }
    assert forall k :: |a| < k < |s| ==> s[k] in s[|a| + 1..];
    assert forall k :: |b| < k < |s| ==> s[k] in s[|b| + 1..];
  }

  /** Where a verified file lies: under its version's directory, by digest and then by name. */
  lemma VerifiedPathIs()
    ensures VerifiedPath("/cache", "vialite-linux-amd64", "abc123") == "/cache/abc123/vialite-linux-amd64"
  {
  }

  /** A cached path names its digest: no two digests share one, whatever the directory. */
  lemma PathNamesDigest(dir: string, asset: string, sha: string, dir': string, asset': string, sha': string)
    requires VerifiedPath(dir, asset, sha) == VerifiedPath(dir', asset', sha')
    requires '/' !in asset && '/' !in asset' && '/' !in sha && '/' !in sha'
    ensures sha == sha' && asset == asset' && dir == dir'
  {
    LastSlash(dir + "/" + sha, asset, dir' + "/" + sha', asset');
    LastSlash(dir, sha, dir', sha');
  }

  /** One call: where it looks, what it expects, what it meets. */
  datatype Call = Call(dir: string, asset: string, sha: string, weather: Weather)

  function CachedBy(c: Call): string {
    VerifiedPath(c.dir, c.asset, c.sha)
  }

  /** Asset names are plain file names, digests are hexadecimal. */
  predicate Plain(c: Call) {
    '/' !in c.asset && IsSha256Hex(c.sha)
  }

  ghost predicate Possible(files: Files, hash: string -> string, calls: seq<Call>)
    decreases |calls|
  {
    calls != [] ==>
      var c := calls[0];
      && Plain(c) && Fresh(files, CachedBy(c), c.weather)
      && Possible(Outcome(files, CachedBy(c), c.sha, hash, c.weather).0, hash, calls[1..])
  }

  ghost function AfterCalls(files: Files, hash: string -> string, calls: seq<Call>): Files
    decreases |calls|
  {
    if calls == [] then files
    else
      var c := calls[0];
      AfterCalls(Outcome(files, CachedBy(c), c.sha, hash, c.weather).0, hash, calls[1..])
  }

  lemma CallKeepsVerified(files: Files, hash: string -> string, c: Call, dir: string, asset: string, sha: string)
    requires Plain(c) && Fresh(files, CachedBy(c), c.weather)
    requires '/' !in asset && '/' !in sha && Verified(files, VerifiedPath(dir, asset, sha), sha, hash)
    ensures Verified(Outcome(files, CachedBy(c), c.sha, hash, c.weather).0, VerifiedPath(dir, asset, sha), sha, hash)
  {
    var path := VerifiedPath(dir, asset, sha);
    FailureLeavesCache(files, CachedBy(c), c.sha, hash, c.weather, path);
    ReturnedIsVerified(files, CachedBy(c), c.sha, hash, c.weather);
    if path == CachedBy(c) {
      assert '/' !in c.sha;
      PathNamesDigest(dir, asset, sha, c.dir, c.asset, c.sha);
    }
  }

  /** A path once returned stays verified through every later sequence of calls, for any
      version, asset or digest, successful or not. */
  lemma {:induction false} VerifiedForever(files: Files, hash: string -> string, calls: seq<Call>, dir: string, asset: string, sha: string)
    requires Possible(files, hash, calls)
    requires '/' !in asset && IsSha256Hex(sha) && Verified(files, VerifiedPath(dir, asset, sha), sha, hash)
    ensures Verified(AfterCalls(files, hash, calls), VerifiedPath(dir, asset, sha), sha, hash)
    decreases |calls|
  {
    if calls != [] {
      var c := calls[0];
      assert '/' !in sha;
      hide Verified, Outcome, VerifiedPath, Fresh;
      CallKeepsVerified(files, hash, c, dir, asset, sha);
      VerifiedForever(Outcome(files, CachedBy(c), c.sha, hash, c.weather).0, hash, calls[1..], dir, asset, sha);
    }
  }
}
