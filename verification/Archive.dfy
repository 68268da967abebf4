/** Walking through an archive: extraction with a size limit, and the search for
    the one root directory. */
module Archive {
  import opened Wrappers
  import opened Text

  datatype Kind = Regular | Directory | Other

  /** An archive member as its header declares it.  `source` is what reading it
      yields, whatever size the header declares; None when there is nothing to read. */
  datatype Member = Member(kind: Kind, name: string, size: int, source: Option<string>)

  // ----- Extraction -----

  /** The two errors that the size limit can raise. */
  datatype Limit =
    | WouldExceed(maxSize: int, currentSize: nat, fileSize: int)
    | Exceeded(maxSize: int, currentSize: nat)

  /** source.read(n): at most n characters, or all of them if n is negative. */
  function Read(source: string, n: int): string {
    if n < 0 || |source| <= n then source else source[..n]
  }

  lemma ReadPart(source: string, n: int)
    ensures source == Read(source, n) + source[|Read(source, n)|..]
    ensures Read(source, n) != "" ==> n != 0 && (0 < n ==> |Read(source, n)| <= n)
  {
  }

  /** All that repeated reading yields: nothing if it is done in chunks of size 0. */
  function Readable(m: Member, chunkSize: int): Option<string> {
    if !m.kind.Regular? || m.source.None? then None
    else Some(if chunkSize == 0 then "" else m.source.value)
  }

  function Length(m: Member, chunkSize: int): nat {
    var text := Readable(m, chunkSize);
    if text.Some? then |text.value| else 0
  }

  /** The number of characters in all the files of an archive. */
  function Bytes(members: seq<Member>, chunkSize: int): nat {
    if members == [] then 0 else Length(members[0], chunkSize) + Bytes(members[1..], chunkSize)
  }

  /** Why a member cannot be extracted after `total` characters of others. */
  function Refusal(m: Member, total: nat, maxSize: int, chunkSize: int): Option<Limit> {
    if m.kind.Regular? && total + m.size > maxSize then Some(WouldExceed(maxSize, total, m.size))
    else if 0 < Length(m, chunkSize) && total + Length(m, chunkSize) > maxSize then Some(Exceeded(maxSize, total))
    else None
  }

  /** The files after a member: a refused one leaves no partial file behind. */
  function Stored(files: map<string, string>, m: Member, refusal: Option<Limit>, chunkSize: int): map<string, string> {
    if refusal.Some? then (if refusal.value.Exceeded? then files - {m.name} else files)
    else
      var text := Readable(m, chunkSize);
      if text.Some? then files[m.name := text.value] else files
  }

  /** Extraction, member by member. */
  function Walk(members: seq<Member>, maxSize: int, chunkSize: int, total: nat, files: map<string, string>)
    : (Result<nat, Limit>, map<string, string>)
  {
    if members == [] then (Success(total), files)
    else
      var m := members[0];
      var refusal := Refusal(m, total, maxSize, chunkSize);
      var files' := Stored(files, m, refusal, chunkSize);
      if refusal.Some? then (Failure(refusal.value), files')
      else Walk(members[1..], maxSize, chunkSize, total + Length(m, chunkSize), files')
  }

  /** The member at k fits in after all those before it: what it declares, if it
      is a regular file, and what it yields. */
  predicate Fits(members: seq<Member>, k: nat, start: nat, maxSize: int, chunkSize: int)
    requires k < |members|
  {
    var before := start + Bytes(members[..k], chunkSize);
    && (members[k].kind.Regular? ==> before + members[k].size <= maxSize)
    && (Length(members[k], chunkSize) == 0 || before + Length(members[k], chunkSize) <= maxSize)
  }

  lemma BytesShift(members: seq<Member>, k: nat, chunkSize: int)
    requires 0 < k <= |members|
    ensures Bytes(members[..k], chunkSize) == Length(members[0], chunkSize) + Bytes(members[1..][..k - 1], chunkSize)
  {
    assert members[..k][0] == members[0] && members[..k][1..] == members[1..][..k - 1];
  }

  lemma FitsShift(members: seq<Member>, k: nat, start: nat, maxSize: int, chunkSize: int)
    requires 0 < k < |members|
    ensures Fits(members, k, start, maxSize, chunkSize)
      <==> Fits(members[1..], k - 1, start + Length(members[0], chunkSize), maxSize, chunkSize)
  {
    BytesShift(members, k, chunkSize);
  }

  /** Extraction succeeds exactly when every member fits, and then it returns
      the number of characters in all files, which is within the limit. */
  lemma {:induction false} WalkSucceedsIff(members: seq<Member>, maxSize: int, chunkSize: int, start: nat, files: map<string, string>)
    ensures
      var r := Walk(members, maxSize, chunkSize, start, files).0;
      && (r.Success? <==> forall k :: 0 <= k < |members| ==> Fits(members, k, start, maxSize, chunkSize))
      && (r.Success? ==> r.value == start + Bytes(members, chunkSize))
      && (r.Success? && start < r.value ==> r.value <= maxSize)
  {
    if members != [] {
      assert members[..0] == [];
      assert Fits(members, 0, start, maxSize, chunkSize) <==> Refusal(members[0], start, maxSize, chunkSize).None?;
      if Fits(members, 0, start, maxSize, chunkSize) {
        var rest, next := members[1..], start + Length(members[0], chunkSize);
        WalkSucceedsIff(rest, maxSize, chunkSize, next, Stored(files, members[0], None, chunkSize));
        forall k | 0 < k < |members|
          ensures Fits(members, k, start, maxSize, chunkSize) <==> Fits(rest, k - 1, next, maxSize, chunkSize)
        {
          FitsShift(members, k, start, maxSize, chunkSize);
        }
        assert forall k :: 0 <= k < |rest| ==> (Fits(rest, k, next, maxSize, chunkSize) <==> Fits(members, k + 1, start, maxSize, chunkSize));
      }
    }
  }

  /** Otherwise it stops at the first member that does not fit.  If that declares
      too much, the error has the limit, the amount extracted before, and the
      declared size; if it only yields too much, the limit and the amount. */
  lemma {:induction false} WalkFailsAt(members: seq<Member>, k: nat, maxSize: int, chunkSize: int, start: nat, files: map<string, string>)
    requires k < |members| && !Fits(members, k, start, maxSize, chunkSize)
    requires forall j :: 0 <= j < k ==> Fits(members, j, start, maxSize, chunkSize)
    ensures
      var before := start + Bytes(members[..k], chunkSize);
      Walk(members, maxSize, chunkSize, start, files).0 == Failure(
        if members[k].kind.Regular? && before + members[k].size > maxSize then WouldExceed(maxSize, before, members[k].size)
        else Exceeded(maxSize, before))
  {
    assert members[..0] == [];
    if k > 0 {
      assert Fits(members, 0, start, maxSize, chunkSize);
      var rest, next := members[1..], start + Length(members[0], chunkSize);
      forall j | 0 < j <= k
        ensures Fits(members, j, start, maxSize, chunkSize) <==> Fits(rest, j - 1, next, maxSize, chunkSize)
      {
        FitsShift(members, j, start, maxSize, chunkSize);
      }
      assert forall j :: 0 <= j < k - 1 ==> (Fits(rest, j, next, maxSize, chunkSize) <==> Fits(members, j + 1, start, maxSize, chunkSize));
      WalkFailsAt(rest, k - 1, maxSize, chunkSize, next, Stored(files, members[0], None, chunkSize));
      BytesShift(members, k, chunkSize);
    }
  }

  /** Every regular member yields exactly as much as its header declares. */
  predicate Honest(m: Member) {
    m.kind.Regular? ==> m.source.Some? && |m.source.value| == m.size
  }

  /** With honest members the check inside the loop never fires, and extraction
      succeeds exactly when the declared sizes add up to no more than the limit. */
  lemma {:induction false} HonestWalk(members: seq<Member>, maxSize: int, chunkSize: int, start: nat, files: map<string, string>)
    requires chunkSize != 0 && forall m :: m in members ==> Honest(m)
    ensures
      var r := Walk(members, maxSize, chunkSize, start, files).0;
      && (r.Failure? ==> r.error.WouldExceed?)
      && (r.Success? <==> (forall m :: m in members ==> !m.kind.Regular?) || start + Bytes(members, chunkSize) <= maxSize)
  {
    if members != [] {
      var m, rest := members[0], members[1..];
      assert Honest(m);
      HonestWalk(rest, maxSize, chunkSize, start + Length(m, chunkSize), Stored(files, m, None, chunkSize));
      assert forall other :: other in members <==> other == m || other in rest;
      if forall other :: other in rest ==> !other.kind.Regular? {
        NoBytes(rest, chunkSize);
      }
    }
  }

  lemma {:induction false} NoBytes(members: seq<Member>, chunkSize: int)
    requires forall m :: m in members ==> !m.kind.Regular?
    ensures Bytes(members, chunkSize) == 0
  {
    if members != [] {
      assert members[0] in members;
      NoBytes(members[1..], chunkSize);
    }
  }

  /** No member of that name can be read. */
  predicate Unnamed(members: seq<Member>, name: string, chunkSize: int) {
    forall k :: 0 <= k < |members| && members[k].name == name ==> Readable(members[k], chunkSize).None?
  }

  lemma UnnamedRest(members: seq<Member>, name: string, chunkSize: int)
    requires members != [] && Unnamed(members, name, chunkSize)
    ensures Unnamed(members[1..], name, chunkSize)
    ensures members[0].name == name ==> Readable(members[0], chunkSize).None?
  {
  }

  lemma {:induction false} WalkKeeps(members: seq<Member>, maxSize: int, chunkSize: int, start: nat,
                                     files: map<string, string>, name: string)
    requires Walk(members, maxSize, chunkSize, start, files).0.Success? && Unnamed(members, name, chunkSize)
    ensures
      var files' := Walk(members, maxSize, chunkSize, start, files).1;
      (name in files' <==> name in files) && (name in files ==> files'[name] == files[name])
  {
    if members != [] {
      UnnamedRest(members, name, chunkSize);
      WalkKeeps(members[1..], maxSize, chunkSize, start + Length(members[0], chunkSize),
                Stored(files, members[0], None, chunkSize), name);
    }
  }

  /** After a success there are no other files than the members', and each holds,
      in full, what the last member of its name yields. */
  lemma {:induction false} WalkStores(members: seq<Member>, maxSize: int, chunkSize: int, start: nat,
                                      files: map<string, string>, k: nat)
    requires Walk(members, maxSize, chunkSize, start, files).0.Success?
    requires k < |members| && Readable(members[k], chunkSize).Some? && Unnamed(members[k + 1..], members[k].name, chunkSize)
    ensures
      var files' := Walk(members, maxSize, chunkSize, start, files).1;
      && members[k].name in files' && Some(files'[members[k].name]) == Readable(members[k], chunkSize)
      && members[k].kind.Regular?
      && (chunkSize != 0 ==> members[k].source == Some(files'[members[k].name]))
  {
    var stored := Stored(files, members[0], None, chunkSize);
    var next := start + Length(members[0], chunkSize);
    if k == 0 {
      WalkKeeps(members[1..], maxSize, chunkSize, next, stored, members[0].name);
    } else {
      assert members[1..][k - 1] == members[k] && members[1..][k..] == members[k + 1..];
      WalkStores(members[1..], maxSize, chunkSize, next, stored, k - 1);
    }
  }

  lemma Rewritten(files: map<string, string>, name: string, first: string, second: string)
    ensures files[name := first][name := second] == files[name := second]
    ensures files[name := second] - {name} == files - {name}
  {
  }

  function Max(a: int, b: int): int {
    if a < b then b else a
  }

  /** The readings of a counter that starts at 0, never goes down and now shows `now`. */
  ghost predicate Rising(readings: seq<nat>, now: nat) {
    && (forall i, j :: 0 <= i < j < |readings| ==> readings[i] <= readings[j])
    && now == if readings == [] then 0 else readings[|readings| - 1]
  }

  /** The directory that an archive is extracted into. */
  class Extraction {
    var files: map<string, string>
    // How many characters have been written so far.
    var written: nat
    // What that number was after each write.
    ghost var readings: seq<nat>

    constructor ()
      ensures files == map[] && written == 0 && readings == []
    {
      files, written, readings := map[], 0, [];
    }

    /** Every write to a file goes through here. */
    method Write(name: string, chunk: string)
      requires name in files && Rising(readings, written)
      modifies this
      ensures files == old(files)[name := old(files)[name] + chunk] && written == old(written) + |chunk|
      ensures readings == old(readings) + [written] && Rising(readings, written)
    {
      files := files[name := files[name] + chunk];
      written := written + |chunk|;
      readings := readings + [written];
    }

    /** Extracts one file in chunks; if the limit is passed on the way, the
        partial file is removed, and at most one chunk too many has been written. */
    method ExtractFile(name: string, source: string, maxSize: int, chunkSize: int, total: nat) returns (size: nat, within: bool)
      requires Rising(readings, written)
      modifies this
      ensures Rising(readings, written) && written == old(written) + size
      ensures
        var text := if chunkSize == 0 then "" else source;
        && (within <==> text == "" || total + |text| <= maxSize)
        && (within ==> size == |text| && files == old(files)[name := text])
        && (!within ==> files == old(files) - {name} && total + size > maxSize)
        && (!within && 0 < chunkSize ==> (size <= chunkSize || total + size <= maxSize + chunkSize))
    {
      files := files[name := ""];
      size := 0;
      var rest := source;
      ghost var done := "";
      while true
        invariant source == done + rest && |done| == size
        invariant files == old(files)[name := done]
        invariant written == old(written) + size && Rising(readings, written)
        invariant size == 0 || (total + size <= maxSize && chunkSize != 0)
        decreases |rest|
      {
        var chunk := Read(rest, chunkSize);
        if chunk == "" {
          break;
        }
        ReadPart(rest, chunkSize);
        rest := rest[|chunk|..];
        Associative(done, chunk, rest);
        Rewritten(old(files), name, done, done + chunk);
        done := done + chunk;
        Write(name, chunk);
        size := size + |chunk|;
        // Check size limits during extraction.
        if total + size > maxSize {
          files := files - {name};
          return size, false;
        }
      }
      assert rest == "" || chunkSize == 0;
      assert done + "" == done;
      within := true;
    }

    /** archive_extract_safe.  With a positive chunk size, no more than the limit
        and one chunk have been written at any time, whatever the members yield; on
        success what is returned is what was written. */
    method ArchiveExtractSafe(members: seq<Member>, maxSize: int, chunkSize: int) returns (r: Result<nat, Limit>)
      requires files == map[] && written == 0 && readings == []
      modifies this
      ensures (r, files) == Walk(members, maxSize, chunkSize, 0, map[])
      ensures 0 < chunkSize ==> forall n :: n in readings ==> n <= Max(maxSize, 0) + chunkSize
      ensures Rising(readings, written)
      ensures r.Success? ==> r.value == written
      ensures r.Success? && written > 0 ==> written <= maxSize
    {
      var totalExtracted: nat := 0;
      for i := 0 to |members|
        invariant written == totalExtracted && (totalExtracted == 0 || totalExtracted <= maxSize) && Rising(readings, written)
        invariant Walk(members, maxSize, chunkSize, 0, map[]) == Walk(members[i..], maxSize, chunkSize, totalExtracted, files)
      {
        var m := members[i];
        assert members[i..][0] == m && members[i..][1..] == members[i + 1..];
        // Skip anything that is not a file or directory.
        if m.kind.Other? {
          continue;
        }
        if m.kind.Regular? && totalExtracted + m.size > maxSize {
          return Failure(WouldExceed(maxSize, totalExtracted, m.size));
        }
        if m.kind.Directory? || m.source.None? {
          continue;
        }
        var size, within := ExtractFile(m.name, m.source.value, maxSize, chunkSize, totalExtracted);
        if !within {
          return Failure(Exceeded(maxSize, totalExtracted));
        }
        totalExtracted := totalExtracted + size;
      }
      r := Success(totalExtracted);
    }
  }

  // ----- The root directory -----

  /** The two errors of the search. */
  datatype RootError = MultipleRoots(root: string, other: string) | NoRoot

  /** The name up to its first slash. */
  function FirstComponent(name: string): (first: string)
    ensures first <= name && '/' !in first
    ensures first == name || name[|first|] == '/'
  {
    if name == "" || name[0] == '/' then "" else [name[0]] + FirstComponent(name[1..])
  }

  /** The first non-empty first component is `root`, and all members from there on have it. */
  ghost predicate RootFrom(members: seq<Member>, i: nat, root: string) {
    && i < |members| && root != ""
    && (forall j :: 0 <= j < i ==> FirstComponent(members[j].name) == "")
    && (forall j :: i <= j < |members| ==> FirstComponent(members[j].name) == root)
  }

  ghost predicate HasRoot(members: seq<Member>, root: string) {
    exists i: nat :: RootFrom(members, i, root)
  }

  /** The members up to some place have the root `root`, and the one there has the first component `other`. */
  ghost predicate FirstClash(members: seq<Member>, root: string, other: string) {
    exists j :: 0 <= j < |members| && HasRoot(members[..j], root) && FirstComponent(members[j].name) == other && other != root
  }

  lemma NotOneRoot(members: seq<Member>, i: nat, j: nat, root: string)
    requires i < j < |members|
    requires FirstComponent(members[i].name) != "" && FirstComponent(members[i].name) != FirstComponent(members[j].name)
    ensures !HasRoot(members, root)
  {
    assert forall k: nat :: RootFrom(members, k, root) ==> k <= i;
  }

  lemma RootIsThere(members: seq<Member>, root: string)
    requires HasRoot(members, root)
    ensures exists i :: 0 <= i < |members| && FirstComponent(members[i].name) != ""
  {
    var k: nat :| RootFrom(members, k, root);
    assert FirstComponent(members[k].name) == root;
  }

  /** root_directory: it returns the root exactly when there is one.  Otherwise it
      raises, and says that there is none exactly when no member has a first component. */
  method RootDirectory(members: seq<Member>) returns (r: Result<string, RootError>)
    ensures r.Success? ==> HasRoot(members, r.value)
    ensures r.Failure? ==> forall root :: !HasRoot(members, root)
    ensures r == Failure(NoRoot) <==>
      forall j :: 0 <= j < |members| ==> FirstComponent(members[j].name) == ""
    ensures r.Failure? && r.error.MultipleRoots? ==> FirstClash(members, r.error.root, r.error.other)
  {
    var root := "";
    ghost var first: nat := 0;
    for i := 0 to |members|
      invariant root == "" ==> forall j :: 0 <= j < i ==> FirstComponent(members[j].name) == ""
      invariant root != "" ==> RootFrom(members[..i], first, root)
    {
      var part := FirstComponent(members[i].name);
      if root == "" {
        root, first := part, i;
      } else if part != root {
        assert FirstComponent(members[..i][first].name) == root == FirstComponent(members[first].name);
        forall other ensures !HasRoot(members, other) {
          NotOneRoot(members, first, i, other);
        }
        assert HasRoot(members[..i], root) && part == FirstComponent(members[i].name);
        return Failure(MultipleRoots(root, part));
      }
    }
    if root == "" {
      forall other ensures !HasRoot(members, other) {
        if HasRoot(members, other) {
          RootIsThere(members, other);
        }
      }
      return Failure(NoRoot);
    }
    assert members[..|members|] == members && FirstComponent(members[first].name) == root;
    r := Success(root);
  }

  lemma RootIsUnique(members: seq<Member>, root: string, other: string)
    requires HasRoot(members, root) && HasRoot(members, other)
    ensures root == other
  {
    var i: nat :| RootFrom(members, i, root);
    var k: nat :| RootFrom(members, k, other);
    assert FirstComponent(members[i].name) == root && FirstComponent(members[k].name) == other;
  }

  /** Every file that extraction stores under a name with a first component lies under the root. */
  lemma ExtractedUnderRoot(members: seq<Member>, root: string, maxSize: int, chunkSize: int, name: string)
    requires HasRoot(members, root)
    requires name in Walk(members, maxSize, chunkSize, 0, map[]).1 && FirstComponent(name) != ""
    ensures FirstComponent(name) == root
  {
    var k := StoredName(members, maxSize, chunkSize, 0, map[], name);
    var i: nat :| RootFrom(members, i, root);
  }

  lemma {:induction false} StoredName(members: seq<Member>, maxSize: int, chunkSize: int, start: nat,
                                      files: map<string, string>, name: string) returns (k: nat)
    requires name in Walk(members, maxSize, chunkSize, start, files).1 && name !in files
    ensures k < |members| && members[k].name == name
  {
    var m := members[0];
    var refusal := Refusal(m, start, maxSize, chunkSize);
    if name in Stored(files, m, refusal, chunkSize) {
      k := 0;
    } else {
      k := StoredName(members[1..], maxSize, chunkSize, start + Length(m, chunkSize), Stored(files, m, refusal, chunkSize), name);
      k := k + 1;
    }
  }

  // ----- The structure check -----

  datatype Structure = Structure(valid: bool, rootDirs: seq<string>, message: string)

  /** The file name without its last two extensions. */
  function ExpectedRoot(filename: string): string {
    Splitext(Splitext(filename).0).0
  }

  /** The file is the package `name`, in one of the two usual forms. */
  ghost predicate Package(filename: string, name: string) {
    && name != "" && '/' !in name
    && ((filename == name + ".tgz" && '.' !in name)
        || (filename == name + ".tar.gz" && exists i :: 0 <= i < |name| && name[i] != '.'))
  }

  function Mismatch(root: string, expected: string): string {
    "Root directory '" + root + "' does not match expected name '" + expected + "'"
  }

  /** _check_structure_core.  The exception of root_directory is not a
      ValueError, so it is not turned into an invalid structure. */
  method CheckStructureCore(members: seq<Member>, filename: string) returns (r: Result<Structure, RootError>)
    ensures r.Success? <==> exists root :: HasRoot(members, root)
    ensures r.Success? ==>
      && |r.value.rootDirs| == 1 && HasRoot(members, r.value.rootDirs[0])
      && (r.value.valid <==> HasRoot(members, ExpectedRoot(filename)))
    ensures r.Success? && r.value.valid ==> r.value.message == "Archive structure is valid"
    ensures r.Success? && !r.value.valid ==> r.value.message == Mismatch(r.value.rootDirs[0], ExpectedRoot(filename))
    ensures forall name :: r.Success? && Package(filename, name) ==> (r.value.valid <==> HasRoot(members, name))
  {
    PackagesExpected(filename);
    var expectedRoot := ExpectedRoot(filename);
    var root := RootDirectory(members);
    if root.Failure? {
      return Failure(root.error);
    }
    if HasRoot(members, expectedRoot) {
      RootIsUnique(members, root.value, expectedRoot);
    }
    if root.value != expectedRoot {
      return Success(Structure(false, [root.value],
        Mismatch(root.value, expectedRoot)));
    }
    r := Success(Structure(true, [root.value], "Archive structure is valid"));
  }

  /** A ".tar.gz" file is expected to hold a root directory of its own name
      without the extension, exactly if that name's last component is more than dots. */
  lemma ExpectedRootOf(n: string)
    ensures ExpectedRoot(n + ".tar.gz") == if NamedFile(n) then n else n + ".tar"
    ensures ExpectedRoot(n + ".tar.gz") == n <==> NamedFile(n)
  {
    assert n + ".tar.gz" == (n + ".tar") + ".gz";
    var t := n + ".tar";
    LastBeforeAppend(n, ".tar", '/');
    assert t[|n| + 1] == 't' && NamedFile(t);
    SplitextOf(t, ".gz");
    SplitextOf(n, ".tar");
  }

  /** With one extension, and no other dot in its name, a file is expected to
      hold a root directory of its name without that extension. */
  lemma ExpectedRootOfSingle(dir: string, name: string, ext: string)
    requires LastComponent(dir, name) && name != "" && '.' !in name
    requires ext != "" && ext[0] == '.' && '.' !in ext[1..] && '/' !in ext
    ensures ExpectedRoot(dir + name + ext) == dir + name
  {
    assert name[0] in name;
    NamedFileIff(dir, name);
    SplitextOf(dir + name, ext);
    SplitextPlain(dir, name);
  }

  /** And with no extension at all, one of its whole name. */
  lemma ExpectedRootOfPlain(dir: string, name: string)
    requires LastComponent(dir, name) && '.' !in name
    ensures ExpectedRoot(dir + name) == dir + name
  {
    SplitextPlain(dir, name);
  }

  lemma PackagesExpected(filename: string)
    ensures forall name :: Package(filename, name) ==> ExpectedRoot(filename) == name
  {
    forall name | Package(filename, name) ensures ExpectedRoot(filename) == name {
      PackageExpected(filename, name);
    }
  }

  lemma PackageExpected(filename: string, name: string)
    requires Package(filename, name)
    ensures ExpectedRoot(filename) == name
  {
    assert "" + name == name;
    if filename == name + ".tgz" && '.' !in name {
      assert name + ".tgz" == "" + name + ".tgz";
      ExpectedRootOfSingle("", name, ".tgz");
    } else {
      NamedFileIff("", name);
      ExpectedRootOf(name);
    }
  }
}
