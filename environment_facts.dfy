/** What the environment session guarantees about the files it patches and restores. */
module EnvironmentFacts {
  import opened Wrappers
  import opened Errors
  import opened Host
  import opened EnvVars
  import opened Environment
  import Files

  /** The variables of the earliest backup of `path`, if any. */
  function EarliestBackup(backups: seq<Backup>, path: string): Option<Record>
    decreases |backups|
  {
    if backups == [] then None
    else
      var earlier := EarliestBackup(backups[..|backups| - 1], path);
      if earlier.Some? then earlier
      else if backups[|backups| - 1].envFile == path then Some(backups[|backups| - 1].env)
      else None
  }

  /**
   * Replaying from last to first leaves every backed-up file that exists
   * holding the serialisation of its earliest backup, creates no file and
   * empties the list.
   */
  lemma {:induction false} ReplayRestoresEarliest(fs: FileSystem, backups: seq<Backup>)
    requires Replay(fs, backups).2.Ok?
    ensures Replay(fs, backups).0 == []
    ensures Replay(fs, backups).1.dirs == fs.dirs
    ensures Replay(fs, backups).1.files.Keys == fs.files.Keys
    ensures forall p | p in fs.files ::
      Replay(fs, backups).1.files[p] ==
        if p != "" && EarliestBackup(backups, p).Some? then Serialize(EarliestBackup(backups, p).value)
        else fs.files[p]
    decreases |backups|
  {
    if backups != [] {
      var last := backups[|backups| - 1];
      var fs1 := WriteEnvFile(fs, last.envFile, last.env).value;
      ReplayRestoresEarliest(fs1, backups[..|backups| - 1]);
    }
  }

  /** With no backups, replaying changes nothing. */
  lemma ReplayNothing(fs: FileSystem)
    ensures Replay(fs, []) == ([], fs, Ok(Unit))
  {
  }

  /**
   * Patching writes `{...root, ...worker}` over the worker's environment
   * file if it exists (never creating it) and backs up the parsed worker
   * variables first.
   */
  lemma PatchWrites(fs: FileSystem, dotenvParse: string -> seq<(string, string)>, backups: seq<Backup>,
                    rootDir: string, workerPath: string, env: string)
    requires Patch(fs, dotenvParse, backups, rootDir, workerPath, env).2.Ok?
    ensures var p := Files.GetEnvironmentFile(fs, workerPath, env);
      var worker := ParseEnvFile(fs, dotenvParse, p).value;
      var root := ParseEnvFile(fs, dotenvParse, Files.GetEnvironmentFile(fs, rootDir, env)).value;
      var (backups', fs', _) := Patch(fs, dotenvParse, backups, rootDir, workerPath, env);
      && backups' == backups + [Backup(p, worker)]
      && fs'.dirs == fs.dirs
      && fs'.files == if p in fs.files then fs.files[p := Serialize(Spread(root, worker))] else fs.files
  {
  }

  /**
   * Patching and then rolling back leaves the worker's environment file
   * holding the serialisation of what it parsed to, and every other file as
   * it was; an absent file stays absent.
   */
  lemma PatchThenRollback(fs: FileSystem, dotenvParse: string -> seq<(string, string)>,
                          rootDir: string, workerPath: string, env: string)
    requires Patch(fs, dotenvParse, [], rootDir, workerPath, env).2.Ok?
    ensures var p := Files.GetEnvironmentFile(fs, workerPath, env);
      var (backups1, fs1, _) := Patch(fs, dotenvParse, [], rootDir, workerPath, env);
      var (backups2, temp2, fs2, r) := Rollback(fs1, backups1, "");
      && r.Ok? && backups2 == [] && temp2 == ""
      && fs2.dirs == fs.dirs
      && fs2.files == if p in fs.files then fs.files[p := Serialize(ParseEnv(dotenvParse, fs.files[p]))] else fs.files
  {
    var p := Files.GetEnvironmentFile(fs, workerPath, env);
    var worker := ParseEnvFile(fs, dotenvParse, p).value;
    PatchWrites(fs, dotenvParse, [], rootDir, workerPath, env);
    var patched := Patch(fs, dotenvParse, [], rootDir, workerPath, env);
    var fs1 := patched.1;
    assert patched.0 == [Backup(p, worker)];
    assert p !in fs1.dirs;
    var fs2 := WriteEnvFile(fs1, p, worker).value;
    ReplayOne(fs1, Backup(p, worker));
    assert Rollback(fs1, patched.0, "") == ([], "", fs2, Ok(Unit));
    if p in fs.files {
      assert worker == ParseEnv(dotenvParse, fs.files[p]);
      assert fs2.files == fs1.files[p := Serialize(worker)];
    }
  }

  lemma ReplayOne(fs: FileSystem, b: Backup)
    requires WriteEnvFile(fs, b.envFile, b.env).Ok?
    ensures Replay(fs, [b]) == ([], WriteEnvFile(fs, b.envFile, b.env).value, Ok(Unit))
  {
    assert [b][..0] == [];
  }

  /** Rollback restores the original bytes exactly when they were already in canonical form. */
  lemma RollbackExactIffCanonical(fs: FileSystem, dotenvParse: string -> seq<(string, string)>,
                                  rootDir: string, workerPath: string, env: string)
    requires Patch(fs, dotenvParse, [], rootDir, workerPath, env).2.Ok?
    ensures var p := Files.GetEnvironmentFile(fs, workerPath, env);
      var (backups1, fs1, _) := Patch(fs, dotenvParse, [], rootDir, workerPath, env);
      Rollback(fs1, backups1, "").2 == fs <==>
        (p in fs.files ==> fs.files[p] == Serialize(ParseEnv(dotenvParse, fs.files[p])))
  {
    var p := Files.GetEnvironmentFile(fs, workerPath, env);
    PatchThenRollback(fs, dotenvParse, rootDir, workerPath, env);
    var (backups1, fs1, _) := Patch(fs, dotenvParse, [], rootDir, workerPath, env);
    var fs2 := Rollback(fs1, backups1, "").2;
    if p in fs.files && fs2 == fs {
      assert fs2.files[p] == Serialize(ParseEnv(dotenvParse, fs.files[p]));
    }
  }

  /**
   * `createTempEnvFile` deletes any old temp env file and never writes a new
   * one, yet records and returns its path.
   */
  lemma TempEnvFileNeverCreated(fs: FileSystem, dotenvParse: string -> seq<(string, string)>, rootDir: string,
                                tempEnvFileName: string, workerPath: string, env: string, tempEnvPath: string)
    requires fs.Valid()
    requires CreateTemp(fs, dotenvParse, rootDir, tempEnvFileName, workerPath, env, tempEnvPath).2.Ok?
    ensures var path := Join(workerPath, tempEnvFileName);
      var (tempEnvPath', fs', r) := CreateTemp(fs, dotenvParse, rootDir, tempEnvFileName, workerPath, env, tempEnvPath);
      && r.value == path && tempEnvPath' == path
      && !fs'.Exists(path)
      && fs'.dirs == fs.dirs && fs'.files == fs.files - {path}
  {
  }

  /** A rollback that succeeds empties the backup list and forgets (and deletes) the temp env file. */
  lemma RollbackClears(fs: FileSystem, backups: seq<Backup>, tempEnvPath: string)
    requires fs.Valid()
    requires Rollback(fs, backups, tempEnvPath).3.Ok?
    ensures var (backups', tempEnvPath', fs', _) := Rollback(fs, backups, tempEnvPath);
      && backups' == [] && tempEnvPath' == ""
      && (tempEnvPath != "" ==> !fs'.Exists(tempEnvPath))
  {
    ReplayRestoresEarliest(fs, backups);
  }
}
