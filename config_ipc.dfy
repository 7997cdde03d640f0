/**
 * The main process's configuration file handlers (`electron/ipc/config.ts`): reading and writing
 * a tool's file, timestamped backups beside it with a retention of ten, listing and restoring
 * them.  The file system is a map from directory to its entries in `readdir` order; a file is
 * addressed by its `dirname` and `basename`.  Directories in `readOnly` refuse every change.
 */
module ConfigIpc {
  import opened Wrappers
  import opened Records
  import opened Json
  import opened Strings
  import opened Lists
  import opened PathResolver

  const BACKUP_EXTENSION := ".backup"
  /** The number of backups kept per file; the `maxBackups` preference is not consulted. */
  const MAX_BACKUPS := 10

  /**
   * A file's content as the renderer reads it: empty (falsy), a JSON document, or text that
   * `JSON.parse` rejects.
   */
  datatype Text = Blank | Doc(doc: Json) | Malformed

  /** The entries of one directory. */
  type Dir = Record<Text>

  /** `path.join(dir, name)` for a name without separators. */
  function JoinPath(dir: string, name: string): string
  {
    dir + "/" + name
  }

  /** `new Date().toISOString().replace(/[:.]/g, '-')`. */
  function Timestamp(iso: string): (t: string)
    ensures |t| == |iso|
    ensures ':' !in t && '.' !in t
    ensures forall c :: c in t && c != '-' ==> c in iso
  {
    ReplaceChars(iso, {':', '.'}, '-')
  }

  /** What every backup of a file named `baseName` starts with. */
  function BackupPrefix(baseName: string): string
  {
    baseName + BACKUP_EXTENSION
  }

  /** `${baseName}.backup.${timestamp}`. */
  function BackupName(baseName: string, iso: string): (n: string)
    ensures StartsWith(n, BackupPrefix(baseName))
  {
    var n := BackupPrefix(baseName) + "." + Timestamp(iso);
    assert n[..|BackupPrefix(baseName)|] == BackupPrefix(baseName);
    n
  }

  /** `names.filter(f => f.startsWith(prefix))`. */
  function WithPrefix(names: seq<string>, prefix: string): (r: seq<string>)
    ensures forall x :: x in r <==> x in names && StartsWith(x, prefix)
  {
    if names == [] then []
    else
      var rest := WithPrefix(names[1..], prefix);
      assert forall x :: x in names <==> x == names[0] || x in names[1..] by {
        assert names == [names[0]] + names[1..];
      }
      if StartsWith(names[0], prefix) then [names[0]] + rest else rest
  }

  lemma {:induction false} WithPrefixNoDup(names: seq<string>, prefix: string)
    requires NoDup(names)
    ensures NoDup(WithPrefix(names, prefix))
  {
    if names != [] {
      var t := names[1..];
      assert NoDup(t) by {
        forall i, j | 0 <= i < j < |t| ensures t[i] != t[j] { assert t[i] == names[i + 1] && t[j] == names[j + 1]; }
      }
      WithPrefixNoDup(t, prefix);
      assert names[0] !in t by {
        forall i | 0 <= i < |t| ensures t[i] != names[0] { assert t[i] == names[i + 1]; }
      }
    }
  }

  /** `.sort().reverse()`: newest (lexicographically greatest) first. */
  function Newest(names: seq<string>): (r: seq<string>)
    ensures multiset(r) == multiset(names) && |r| == |names|
    ensures forall i, j :: 0 <= i < j < |r| ==> LexLe(r[j], r[i])
  {
    SortSorted(names);
    Reverse(Sort(names))
  }

  lemma NewestMembers(names: seq<string>)
    ensures forall x :: x in Newest(names) <==> x in names
  {
    forall x ensures x in Newest(names) <==> x in names {
      assert multiset(Newest(names))[x] == multiset(names)[x];
    }
  }

  /** The backups of `baseName` in `entries`, newest first. */
  function Backups(entries: Dir, baseName: string): seq<string>
  {
    Newest(WithPrefix(Keys(entries), BackupPrefix(baseName)))
  }

  /** `backups.slice(MAX_BACKUPS)`: the backups past the ten newest. */
  function Excess(entries: Dir, baseName: string): (x: seq<string>)
    ensures forall n :: n in x ==> n in Backups(entries, baseName)
  {
    var b := Backups(entries, baseName);
    if |b| > MAX_BACKUPS then b[MAX_BACKUPS..] else []
  }

  /** The directory after unlinking `names` one after the other. */
  function RemoveAll(entries: Dir, names: seq<string>): Dir
  {
    if names == [] then entries else Remove(RemoveAll(entries, names[..|names| - 1]), names[|names| - 1])
  }

  /** The directory after `cleanupOldBackups`. */
  function Retain(entries: Dir, baseName: string): Dir
  {
    RemoveAll(entries, Excess(entries, baseName))
  }

  lemma {:induction false} RemoveAllKeys(entries: Dir, names: seq<string>)
    ensures forall x :: x in Keys(RemoveAll(entries, names)) <==> x in Keys(entries) && x !in names
  {
    if names != [] {
      var p := names[..|names| - 1];
      RemoveAllKeys(entries, p);
      KeysRemove(RemoveAll(entries, p), names[|names| - 1]);
      assert names == p + [names[|names| - 1]];
    }
  }

  lemma {:induction false} RemoveAllGet(entries: Dir, names: seq<string>, k: string)
    requires k !in names
    ensures Get(RemoveAll(entries, names), k) == Get(entries, k)
  {
    if names != [] {
      var p := names[..|names| - 1];
      assert k !in p;
      RemoveAllGet(entries, p, k);
      GetRemove(RemoveAll(entries, p), names[|names| - 1], k);
    }
  }

  lemma {:induction false} RemoveAllUnique(entries: Dir, names: seq<string>)
    requires UniqueKeys(entries)
    ensures UniqueKeys(RemoveAll(entries, names))
  {
    if names != [] {
      RemoveAllUnique(entries, names[..|names| - 1]);
      RemoveKeepsUnique(RemoveAll(entries, names[..|names| - 1]), names[|names| - 1]);
    }
  }

  lemma KeysNoDup(entries: Dir)
    requires UniqueKeys(entries)
    ensures NoDup(Keys(entries))
  {
  }

  /** The backups of a directory with unique names are distinct. */
  lemma BackupsNoDup(entries: Dir, baseName: string)
    requires UniqueKeys(entries)
    ensures NoDup(Backups(entries, baseName))
  {
    KeysNoDup(entries);
    WithPrefixNoDup(Keys(entries), BackupPrefix(baseName));
    NoDupPermutation(WithPrefix(Keys(entries), BackupPrefix(baseName)), Backups(entries, baseName));
  }

  /** Cleanup unlinks exactly the excess backups; every other file keeps its content. */
  lemma RetainFiles(entries: Dir, baseName: string, k: string)
    ensures k in Keys(Retain(entries, baseName)) <==> k in Keys(entries) && k !in Excess(entries, baseName)
    ensures k !in Excess(entries, baseName) ==> Get(Retain(entries, baseName), k) == Get(entries, k)
    ensures !StartsWith(k, BackupPrefix(baseName)) ==> Get(Retain(entries, baseName), k) == Get(entries, k)
  {
    RemoveAllKeys(entries, Excess(entries, baseName));
    if k !in Excess(entries, baseName) {
      RemoveAllGet(entries, Excess(entries, baseName), k);
    }
    if !StartsWith(k, BackupPrefix(baseName)) {
      assert k !in Backups(entries, baseName) by {
        assert multiset(Backups(entries, baseName))[k] == multiset(WithPrefix(Keys(entries), BackupPrefix(baseName)))[k];
      }
    }
  }

  /** A directory with at most ten backups of the file is left as it is. */
  lemma RetainFew(entries: Dir, baseName: string)
    requires |WithPrefix(Keys(entries), BackupPrefix(baseName))| <= MAX_BACKUPS
    ensures Retain(entries, baseName) == entries
  {
  }

  /** `backups.slice(0, MAX_BACKUPS)`: the ten newest backups. */
  function Kept(entries: Dir, baseName: string): (k: seq<string>)
    ensures |k| == if |Backups(entries, baseName)| > MAX_BACKUPS then MAX_BACKUPS else |Backups(entries, baseName)|
  {
    var b := Backups(entries, baseName);
    if |b| > MAX_BACKUPS then b[..MAX_BACKUPS] else b
  }

  /** The backups left after cleanup are exactly the ten newest. */
  lemma RetainedAreKept(entries: Dir, baseName: string, x: string)
    requires UniqueKeys(entries)
    ensures x in WithPrefix(Keys(Retain(entries, baseName)), BackupPrefix(baseName)) <==> x in Kept(entries, baseName)
  {
    var p := BackupPrefix(baseName);
    var b := Backups(entries, baseName);
    RemoveAllKeys(entries, Excess(entries, baseName));
    BackupsNoDup(entries, baseName);
    assert multiset(b)[x] == multiset(WithPrefix(Keys(entries), p))[x];
    if x in Kept(entries, baseName) {
      var i :| 0 <= i < |Kept(entries, baseName)| && Kept(entries, baseName)[i] == x;
      assert b[i] == x;
      if |b| > MAX_BACKUPS {
        assert x !in b[MAX_BACKUPS..] by {
          forall k | MAX_BACKUPS <= k < |b| ensures b[k] != x { assert i < k; }
        }
      }
    }
  }

  /** After cleanup ten backups of the file remain, or all of them when there were fewer. */
  lemma RetainCount(entries: Dir, baseName: string)
    requires UniqueKeys(entries)
    ensures var n := |WithPrefix(Keys(entries), BackupPrefix(baseName))|;
      |WithPrefix(Keys(Retain(entries, baseName)), BackupPrefix(baseName))| == if n > MAX_BACKUPS then MAX_BACKUPS else n
  {
    var r := Retain(entries, baseName);
    var p := BackupPrefix(baseName);
    var b := Backups(entries, baseName);
    var kept := Kept(entries, baseName);
    RemoveAllUnique(entries, Excess(entries, baseName));
    KeysNoDup(r);
    WithPrefixNoDup(Keys(r), p);
    BackupsNoDup(entries, baseName);
    assert NoDup(kept) by {
      forall i, j | 0 <= i < j < |kept| ensures kept[i] != kept[j] { assert kept[i] == b[i] && kept[j] == b[j]; }
    }
    forall x ensures x in WithPrefix(Keys(r), p) <==> x in kept {
      RetainedAreKept(entries, baseName, x);
    }
    NoDupShorter(WithPrefix(Keys(r), p), kept);
    NoDupShorter(kept, WithPrefix(Keys(r), p));
  }

  /** Cleanup keeps the newest backups: every kept backup sorts after every unlinked one. */
  lemma RetainNewest(entries: Dir, baseName: string, kept: string, gone: string)
    requires UniqueKeys(entries)
    requires kept in Keys(Retain(entries, baseName)) && StartsWith(kept, BackupPrefix(baseName))
    requires gone in Keys(entries) && StartsWith(gone, BackupPrefix(baseName))
    requires gone !in Keys(Retain(entries, baseName))
    ensures LexLess(gone, kept)
  {
    var b := Backups(entries, baseName);
    var x := Excess(entries, baseName);
    RetainFiles(entries, baseName, kept);
    RetainFiles(entries, baseName, gone);
    BackupsNoDup(entries, baseName);
    assert |b| > MAX_BACKUPS && x == b[MAX_BACKUPS..];
    var k :| 0 <= k < |x| && x[k] == gone;
    var j := MAX_BACKUPS + k;
    assert b[j] == gone;
    assert kept in b by {
      assert multiset(b)[kept] == multiset(WithPrefix(Keys(entries), BackupPrefix(baseName)))[kept];
    }
    var i :| 0 <= i < |b| && b[i] == kept;
    assert i < j;
    assert LexLe(gone, kept) && gone != kept;
    LexLessTotal(gone, kept);
    LexLessAsymmetric(kept, gone);
  }

  /** The newest of a list of names comes first in `Newest`. */
  lemma GreatestFirst(names: seq<string>, m: string)
    requires m in names
    requires forall y :: y in names && y != m ==> LexLess(y, m)
    ensures Newest(names) != [] && Newest(names)[0] == m
  {
    var r := Newest(names);
    assert m in multiset(r);
    var i :| 0 <= i < |r| && r[i] == m;
    if r[0] != m {
      assert r[0] in multiset(names);
      assert LexLess(r[0], m);
      assert LexLe(m, r[0]);
      LexLessAsymmetric(m, r[0]);
    }
  }

  /** A new backup that sorts after every existing one heads the backup list. */
  lemma NewestBackupFirst(entries: Dir, baseName: string, name: string, content: Text)
    requires StartsWith(name, BackupPrefix(baseName))
    requires forall y :: y in Keys(entries) && StartsWith(y, BackupPrefix(baseName)) ==> LexLess(y, name)
    ensures Backups(Put(entries, name, content), baseName) != []
    ensures Backups(Put(entries, name, content), baseName)[0] == name
  {
    var e := Put(entries, name, content);
    var w := WithPrefix(Keys(e), BackupPrefix(baseName));
    KeysPut(entries, name, content);
    assert name in w;
    assert forall y :: y in w && y != name ==> y in Keys(entries) && StartsWith(y, BackupPrefix(baseName));
    GreatestFirst(w, name);
  }

  /** A new backup that sorts after every existing one survives the cleanup with its content. */
  lemma RetainKeepsNewest(entries: Dir, baseName: string, name: string, content: Text)
    requires UniqueKeys(entries) && StartsWith(name, BackupPrefix(baseName))
    requires forall y :: y in Keys(entries) && StartsWith(y, BackupPrefix(baseName)) ==> LexLess(y, name)
    ensures Get(Retain(Put(entries, name, content), baseName), name) == Some(content)
  {
    var e := Put(entries, name, content);
    PutKeepsUnique(entries, name, content);
    GetPutSame(entries, name, content);
    NewestBackupFirst(entries, baseName, name, content);
    BackupsNoDup(e, baseName);
    var b := Backups(e, baseName);
    assert name !in Excess(e, baseName) by {
      if |b| > MAX_BACKUPS {
        forall k | MAX_BACKUPS <= k < |b| ensures b[k] != name { assert b[0] != b[k]; }
      }
    }
    RetainFiles(e, baseName, name);
  }

  // ---------------------------------------------------------------------------------------
  // The file system as a value.

  type Files = map<string, Dir>

  /** The content of the file at `path`, if it exists. */
  function Lookup(fs: Files, path: string): (content: Option<Text>)
    ensures content.Some? <==> Dirname(path) in fs && Basename(path) in Keys(fs[Dirname(path)])
  {
    var d := Dirname(path);
    if d in fs then Get(fs[d], Basename(path)) else None
  }

  /** The file system after writing `content` to `path`, creating its directory if needed. */
  function Store(fs: Files, path: string, content: Text): Files
  {
    var d := Dirname(path);
    fs[d := Put(if d in fs then fs[d] else [], Basename(path), content)]
  }

  /** The file system after deleting `path`. */
  function Delete(fs: Files, path: string): Files
    requires Dirname(path) in fs
  {
    fs[Dirname(path) := Remove(fs[Dirname(path)], Basename(path))]
  }

  /** A write is read back, and every other file reads as before. */
  lemma LookupStore(fs: Files, path: string, content: Text, p: string)
    ensures Lookup(Store(fs, path, content), p)
      == if Dirname(p) == Dirname(path) && Basename(p) == Basename(path) then Some(content) else Lookup(fs, p)
  {
    var d := Dirname(path);
    var e := if d in fs then fs[d] else [];
    if Dirname(p) == d {
      if Basename(p) == Basename(path) {
        GetPutSame(e, Basename(path), content);
      } else {
        GetPutOther(e, Basename(path), content, Basename(p));
      }
    }
  }

  /** A deleted file is gone, and every other file reads as before. */
  lemma LookupDelete(fs: Files, path: string, p: string)
    requires Dirname(path) in fs
    ensures Lookup(Delete(fs, path), p)
      == if Dirname(p) == Dirname(path) && Basename(p) == Basename(path) then None else Lookup(fs, p)
  {
    if Dirname(p) == Dirname(path) {
      GetRemove(fs[Dirname(path)], Basename(path), Basename(p));
    }
  }

  /** Directories with unique entry names, normalised directory paths and separator-free names. */
  ghost predicate WellFormed(fs: Files)
  {
    forall d :: d in fs ==>
      UniqueKeys(fs[d]) && '\\' !in d && forall x :: x in Keys(fs[d]) ==> '/' !in x && '\\' !in x
  }

  lemma StoreWellFormed(fs: Files, path: string, content: Text)
    requires WellFormed(fs)
    ensures WellFormed(Store(fs, path, content))
  {
    var d := Dirname(path);
    var e := if d in fs then fs[d] else [];
    PutKeepsUnique(e, Basename(path), content);
    KeysPut(e, Basename(path), content);
  }

  lemma DeleteWellFormed(fs: Files, path: string)
    requires WellFormed(fs) && Dirname(path) in fs
    ensures WellFormed(Delete(fs, path))
  {
    RemoveKeepsUnique(fs[Dirname(path)], Basename(path));
    KeysRemove(fs[Dirname(path)], Basename(path));
  }

  /** `files.map(f => path.join(dir, f))`. */
  function JoinAll(dir: string, names: seq<string>): (paths: seq<string>)
    ensures |paths| == |names|
    ensures forall i :: 0 <= i < |names| ==> paths[i] == JoinPath(dir, names[i])
  {
    seq(|names|, i requires 0 <= i < |names| => JoinPath(dir, names[i]))
  }

  lemma JoinAllMembers(dir: string, names: seq<string>)
    ensures forall p :: p in JoinAll(dir, names) <==> exists n :: n in names && p == JoinPath(dir, n)
  {
    var paths := JoinAll(dir, names);
    forall p | p in paths ensures exists n :: n in names && p == JoinPath(dir, n) {
      var i :| 0 <= i < |paths| && paths[i] == p;
      assert names[i] in names;
    }
  }

  /** The file system after `cleanupOldBackups(dir, baseName)` runs to the end; a missing directory is left alone. */
  function Prune(fs: Files, dir: string, baseName: string): Files
  {
    if dir in fs then fs[dir := Retain(fs[dir], baseName)] else fs
  }

  /** Where `createBackup` puts the backup of `filePath` taken at `iso`. */
  function BackupPath(filePath: string, iso: string): string
  {
    JoinPath(Dirname(filePath), BackupName(Basename(filePath), iso))
  }

  /** The backup lies beside the file, under the backup name. */
  lemma BackupPathSplit(filePath: string, iso: string)
    requires '/' !in iso && '\\' !in iso
    ensures Dirname(BackupPath(filePath, iso)) == Dirname(filePath)
    ensures Basename(BackupPath(filePath, iso)) == BackupName(Basename(filePath), iso)
  {
    DirnameBasenameOfJoin(Dirname(filePath), BackupName(Basename(filePath), iso));
  }

  /** The file system after `createBackup` of an existing file in a writable directory. */
  function WithBackup(fs: Files, filePath: string, iso: string): Files
    requires Lookup(fs, filePath).Some?
  {
    Prune(Store(fs, BackupPath(filePath, iso), Lookup(fs, filePath).value), Dirname(filePath), Basename(filePath))
  }

  /** Creating a backup touches only the backups of that file: every other file reads as before. */
  lemma WithBackupOthers(fs: Files, filePath: string, iso: string, p: string)
    requires '/' !in iso && '\\' !in iso
    requires Lookup(fs, filePath).Some?
    requires Dirname(p) != Dirname(filePath) || !StartsWith(Basename(p), BackupPrefix(Basename(filePath)))
    ensures Lookup(WithBackup(fs, filePath, iso), p) == Lookup(fs, p)
  {
    var d := Dirname(filePath);
    var base := Basename(filePath);
    var c := Lookup(fs, filePath).value;
    var bp := BackupPath(filePath, iso);
    BackupPathSplit(filePath, iso);
    var s := Store(fs, bp, c);
    assert p != bp by {
      assert Dirname(p) == d ==> Basename(p) != BackupName(base, iso);
    }
    LookupStore(fs, bp, c, p);
    if Dirname(p) == d {
      RetainFiles(s[d], base, Basename(p));
    }
  }

  /** A backup newer than every existing one holds the file's content, and at most ten remain. */
  lemma WithBackupNewest(fs: Files, filePath: string, iso: string)
    requires '/' !in iso && '\\' !in iso
    requires WellFormed(fs) && Lookup(fs, filePath).Some?
    requires forall y :: y in Keys(fs[Dirname(filePath)]) && StartsWith(y, BackupPrefix(Basename(filePath))) ==>
      LexLess(y, BackupName(Basename(filePath), iso))
    ensures Lookup(WithBackup(fs, filePath, iso), BackupPath(filePath, iso)) == Lookup(fs, filePath)
    ensures Dirname(filePath) in WithBackup(fs, filePath, iso)
    ensures |WithPrefix(Keys(WithBackup(fs, filePath, iso)[Dirname(filePath)]), BackupPrefix(Basename(filePath)))| <= MAX_BACKUPS
  {
    var dir := Dirname(filePath);
    var base := Basename(filePath);
    var c := Lookup(fs, filePath).value;
    BackupPathSplit(filePath, iso);
    var e := Put(fs[dir], BackupName(base, iso), c);
    assert Store(fs, BackupPath(filePath, iso), c)[dir] == e;
    RetainKeepsNewest(fs[dir], base, BackupName(base, iso), c);
    PutKeepsUnique(fs[dir], BackupName(base, iso), c);
    RetainCount(e, base);
  }

  /** The excess backups are distinct files of the directory, with names free of separators. */
  lemma ExcessFacts(fs: Files, dir: string, baseName: string)
    requires WellFormed(fs) && dir in fs
    ensures '\\' !in dir
    ensures NoDup(Excess(fs[dir], baseName))
    ensures forall x :: x in Excess(fs[dir], baseName) ==> x in Keys(fs[dir]) && '/' !in x && '\\' !in x
  {
    var e := fs[dir];
    var b := Backups(e, baseName);
    BackupsNoDup(e, baseName);
    forall x | x in Excess(e, baseName) ensures x in Keys(e) {
      assert multiset(b)[x] == multiset(WithPrefix(Keys(e), BackupPrefix(baseName)))[x];
    }
  }

  lemma RemoveAllNext(entries: Dir, names: seq<string>, i: nat)
    requires i < |names|
    ensures RemoveAll(entries, names[..i + 1]) == Remove(RemoveAll(entries, names[..i]), names[i])
  {
    assert names[..i + 1][..i] == names[..i];
  }

  lemma RemoveAllLeaves(entries: Dir, names: seq<string>, i: nat)
    requires i < |names| && NoDup(names) && names[i] in Keys(entries)
    ensures names[i] in Keys(RemoveAll(entries, names[..i]))
  {
    RemoveAllKeys(entries, names[..i]);
    assert names[i] !in names[..i] by {
      forall k | 0 <= k < i ensures names[..i][k] != names[i] {
        assert names[..i][k] == names[k];
      }
    }
  }

  lemma DeleteIn(fs: Files, dir: string, x: Dir, path: string)
    requires Dirname(path) == dir && Basename(path) in Keys(x)
    ensures Lookup(fs[dir := x], path).Some?
    ensures Delete(fs[dir := x], path) == fs[dir := Remove(x, Basename(path))]
  {
    var fs1 := fs[dir := x];
    var y := Remove(x, Basename(path));
    assert fs1[dir] == x;
    assert Delete(fs1, path) == fs1[dir := y];
    assert fs1[dir := y] == fs[dir := y];
  }

  /** One iteration of the cleanup loop: the next name is still there, and unlinking it extends the removal. */
  lemma CleanupStep(fs: Files, dir: string, entries: Dir, names: seq<string>, i: nat, path: string)
    requires i < |names| && NoDup(names) && names[i] in Keys(entries)
    requires Dirname(path) == dir && Basename(path) == names[i]
    ensures var fs' := fs[dir := RemoveAll(entries, names[..i])];
      Lookup(fs', path).Some? && Delete(fs', path) == fs[dir := RemoveAll(entries, names[..i + 1])]
  {
    RemoveAllLeaves(entries, names, i);
    RemoveAllNext(entries, names, i);
    DeleteIn(fs, dir, RemoveAll(entries, names[..i]), path);
  }

  /**
   * The file system the handlers work on: its directories, and the directories where creating,
   * copying or deleting a file fails.
   */
  class FileStore {
    var dirs: Files
    const readOnly: set<string>

    ghost predicate Valid()
      reads this
    {
      WellFormed(dirs)
    }

    constructor(dirs: Files, readOnly: set<string>)
      requires WellFormed(dirs)
      ensures Valid() && this.dirs == dirs && this.readOnly == readOnly
    {
      this.dirs := dirs;
      this.readOnly := readOnly;
    }

    /** `readConfig`: the content, or null when the file does not exist. */
    method ReadConfig(filePath: string) returns (content: Option<Text>)
      ensures content == Lookup(dirs, filePath)
    {
      var d := Dirname(filePath);
      if d in dirs {
        content := Get(dirs[d], Basename(filePath));
      } else {
        content := None;
      }
    }

    /** `writeConfig`: create the directory if needed, then write; false when that fails. */
    method WriteConfig(filePath: string, content: Text) returns (ok: bool)
      requires Valid()
      modifies this
      ensures Valid()
      ensures ok <==> Dirname(filePath) !in readOnly
      ensures ok ==> dirs == Store(old(dirs), filePath, content)
      ensures !ok ==> dirs == old(dirs)
    {
      var dir := Dirname(filePath);
      if dir in readOnly {
        return false;
      }
      StoreWellFormed(dirs, filePath, content);
      var files := if dir in dirs then dirs[dir] else [];  // `mkdir` with `recursive: true`
      dirs := dirs[dir := Put(files, Basename(filePath), content)];
      return true;
    }

    /** `fs.promises.copyFile`: fails when the source is missing or the target directory is absent or read-only. */
    method CopyFile(src: string, dst: string) returns (ok: bool)
      requires Valid()
      modifies this
      ensures Valid()
      ensures ok <==> Lookup(old(dirs), src).Some? && Dirname(dst) in old(dirs) && Dirname(dst) !in readOnly
      ensures ok ==> dirs == Store(old(dirs), dst, Lookup(old(dirs), src).value)
      ensures !ok ==> dirs == old(dirs)
    {
      var content := ReadConfig(src);
      var dir := Dirname(dst);
      if content.None? || dir !in dirs || dir in readOnly {
        return false;
      }
      StoreWellFormed(dirs, dst, content.value);
      dirs := dirs[dir := Put(dirs[dir], Basename(dst), content.value)];
      return true;
    }

    /** `fs.promises.unlink`: fails when the file is missing or its directory is read-only. */
    method Unlink(path: string) returns (ok: bool)
      requires Valid()
      modifies this
      ensures Valid()
      ensures ok <==> Lookup(old(dirs), path).Some? && Dirname(path) !in readOnly
      ensures ok ==> Dirname(path) in old(dirs) && dirs == Delete(old(dirs), path)
      ensures !ok ==> dirs == old(dirs)
    {
      var dir := Dirname(path);
      var content := ReadConfig(path);
      if content.None? || dir in readOnly {
        return false;
      }
      DeleteWellFormed(dirs, path);
      dirs := dirs[dir := Remove(dirs[dir], Basename(path))];
      return true;
    }
  
    /** `cleanupOldBackups`: unlink the backups past the ten newest; a failure ends the cleanup silently. */
    method CleanupOldBackups(dir: string, baseName: string)
      requires Valid()
      modifies this
      ensures Valid()
      ensures dir !in readOnly ==> dirs == Prune(old(dirs), dir, baseName)
      ensures dir in readOnly ==> dirs == old(dirs)
    {
      if dir !in dirs {
        return;
      }
      var toDelete := Excess(dirs[dir], baseName);
      ghost var e := dirs[dir];
      ghost var fs0 := dirs;
      ExcessFacts(dirs, dir, baseName);
      var i := 0;
      while i < |toDelete|
        invariant 0 <= i <= |toDelete|
        invariant Valid()
        invariant dir in readOnly ==> dirs == fs0
        invariant dir !in readOnly ==> dirs == fs0[dir := RemoveAll(e, toDelete[..i])]
      {
        var file := toDelete[i];
        assert file in toDelete;
        DirnameBasenameOfJoin(dir, file);
        CleanupStep(fs0, dir, e, toDelete, i, JoinPath(dir, file));
        var ok := Unlink(JoinPath(dir, file));
        if !ok {
          break;
        }
        i := i + 1;
      }
      assert dir !in readOnly ==> toDelete[..i] == toDelete;
    }

    /** `createBackup`: copy the file to `<name>.backup.<timestamp>` beside it, then prune. */
    method CreateBackup(filePath: string, iso: string) returns (backupPath: Option<string>)
      requires Valid()
      requires '/' !in iso && '\\' !in iso
      modifies this
      ensures Valid()
      ensures backupPath.Some? <==> Lookup(old(dirs), filePath).Some? && Dirname(filePath) !in readOnly
      ensures backupPath.None? ==> dirs == old(dirs)
      ensures backupPath.Some? ==>
        backupPath.value == BackupPath(filePath, iso) && dirs == WithBackup(old(dirs), filePath, iso)
    {
      var existing := ReadConfig(filePath);
      if existing.None? {
        return None;
      }
      var timestamp := Timestamp(iso);
      var backupDir := Dirname(filePath);
      var baseName := Basename(filePath);
      var path := JoinPath(backupDir, baseName + BACKUP_EXTENSION + "." + timestamp);
      assert baseName + BACKUP_EXTENSION + "." + timestamp == BackupName(baseName, iso);
      BackupPathSplit(filePath, iso);
      var ok := CopyFile(filePath, path);
      if !ok {
        return None;
      }
      CleanupOldBackups(backupDir, baseName);
      return Some(path);
    }

    /** `restoreBackup`: copy the backup over the target; false when the copy fails. */
    method RestoreBackup(backupPath: string, targetPath: string) returns (ok: bool)
      requires Valid()
      modifies this
      ensures Valid()
      ensures ok <==> Lookup(old(dirs), backupPath).Some? && Dirname(targetPath) in old(dirs) && Dirname(targetPath) !in readOnly
      ensures ok ==> dirs == Store(old(dirs), targetPath, Lookup(old(dirs), backupPath).value)
      ensures !ok ==> dirs == old(dirs)
    {
      ok := CopyFile(backupPath, targetPath);
    }

    /** `listBackups`: the paths of the file's backups, newest first; none when the directory is missing. */
    function ListBackups(configPath: string): (paths: seq<string>)
      reads this
      ensures Dirname(configPath) !in dirs ==> paths == []
      ensures forall i, j :: 0 <= i < j < |paths| ==> LexLe(paths[j], paths[i])
      ensures forall p :: p in paths <==> Dirname(configPath) in dirs && exists f ::
        f in Keys(dirs[Dirname(configPath)]) && StartsWith(f, BackupPrefix(Basename(configPath))) && p == JoinPath(Dirname(configPath), f)
    {
      var dir := Dirname(configPath);
      if dir !in dirs then []
      else
        var names := WithPrefix(Keys(dirs[dir]), BackupPrefix(Basename(configPath)));
        NewestMembers(JoinAll(dir, names));
        JoinAllMembers(dir, names);
        Newest(JoinAll(dir, names))
    }
  }
}
