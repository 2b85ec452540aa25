// Local file storage for uploaded images (lib/storage/uploader.ts): the name
// a file is stored under and the path returned for it. Writing the file and
// creating the directory are left out.
module Uploader {
  import opened Strings
  import Common

  /** `normalizePath`: every run of backslashes becomes one forward slash. */
  function NormalizePath(filePath: string): string
  {
    CollapseRuns(filePath, {'\\'}, '/')
  }

  /** No backslash survives, and no character other than `/` is introduced. */
  lemma NormalizePathNoBackslash(filePath: string)
    ensures '\\' !in NormalizePath(filePath)
    ensures forall c :: c in NormalizePath(filePath) ==> c == '/' || c in filePath
  {
    CollapseRunsChars(filePath, {'\\'}, '/');
  }

  /** A path without backslashes is already normal. */
  lemma NormalizePathIdentity(filePath: string)
    requires '\\' !in filePath
    ensures NormalizePath(filePath) == filePath
  {
    CollapseRunsIdentity(filePath, {'\\'}, '/');
  }

  /** Normalising twice is normalising once. */
  lemma NormalizePathIdempotent(filePath: string)
    ensures NormalizePath(NormalizePath(filePath)) == NormalizePath(filePath)
  {
    NormalizePathNoBackslash(filePath);
    NormalizePathIdentity(NormalizePath(filePath));
  }

  /** `n` backslashes. */
  function Backslashes(n: nat): (s: string)
    ensures |s| == n && forall i :: 0 <= i < n ==> s[i] == '\\'
  {
    if n == 0 then [] else ['\\'] + Backslashes(n - 1)
  }

  /**
   * A run of backslashes between two pieces that do not touch it with a
   * backslash of their own becomes a single `/`; the pieces are normalised
   * on their own.
   */
  lemma NormalizePathRun(a: string, n: nat, b: string)
    requires n >= 1
    requires a == [] || a[|a| - 1] != '\\'
    requires b == [] || b[0] != '\\'
    ensures NormalizePath(a + Backslashes(n) + b) == NormalizePath(a) + "/" + NormalizePath(b)
  {
    var run := Backslashes(n);
    assert NormalizePath(run + b) == "/" + NormalizePath(b) by {
      RunThenRest(n, b);
    }
    assert a + run + b == a + (run + b);
    CollapseRunsConcat(a, run + b, {'\\'}, '/');
  }

  lemma RunThenRest(n: nat, b: string)
    requires n >= 1
    requires b == [] || b[0] != '\\'
    ensures NormalizePath(Backslashes(n) + b) == "/" + NormalizePath(b)
  {
    var run := Backslashes(n);
    assert (run + b)[0] == '\\';
    SkipRunConcat(run, b, {'\\'});
    SkipRunAll(n);
    assert SkipRun(run + b, {'\\'}) == b;
  }

  lemma {:induction false} SkipRunAll(n: nat)
    ensures SkipRun(Backslashes(n), {'\\'}) == []
  {
    if n > 0 {
      assert Backslashes(n)[1..] == Backslashes(n - 1);
      SkipRunAll(n - 1);
    }
  }

  /** The name a stored file gets: the upload's timestamp, `_`, and the name it was uploaded with. */
  function StoredFilename(timestamp: string, originalname: string): (name: string)
    ensures |name| == |timestamp| + 1 + |originalname|
    ensures name[..|timestamp|] == timestamp && name[|timestamp|] == '_' && name[|timestamp| + 1..] == originalname
  {
    timestamp + "_" + originalname
  }

  /** `LOCAL_STORAGE_PATH || 'files/images'`: the configured directory, or the default when it is unset or empty. */
  function StorageDirectory(configured: string): (dir: string)
    ensures configured != "" ==> dir == configured
    ensures configured == "" ==> dir == "files/images"
  {
    if configured != "" then configured else "files/images"
  }

  /**
   * `UploadToLocal`: the normalised join of the storage directory and the
   * stored name. `join` is the platform's `path.join`, taken as a parameter.
   */
  function UploadToLocal(join: (string, string) -> string, configured: string, now: Common.DateTime, originalname: string): (path: string)
    ensures path == NormalizePath(join(StorageDirectory(configured), StoredFilename(Common.GetTimestamp(now), originalname)))
    ensures '\\' !in path
  {
    var timestamp := Common.GetTimestamp(now);
    var newFilename := StoredFilename(timestamp, originalname);
    var destinationPath := join(StorageDirectory(configured), newFilename);
    NormalizePathNoBackslash(destinationPath);
    NormalizePath(destinationPath)
  }

  /** `UploadFile`: both branches of the storage switch upload locally, so the setting never matters. */
  function UploadFile(storage: string, join: (string, string) -> string, configured: string, now: Common.DateTime, originalname: string): (path: string)
    ensures path == UploadToLocal(join, configured, now, originalname)
  {
    var storageType := if storage != "" then storage else "local";
    if Common.LowerAll(storageType) == "local" then UploadToLocal(join, configured, now, originalname)
    else UploadToLocal(join, configured, now, originalname)
  }
}
