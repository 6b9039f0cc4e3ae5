/** What composing and cleaning up temp configs guarantees. */
module FilesFacts {
  import opened Wrappers
  import opened Strings
  import opened Names
  import opened Errors
  import opened Host
  import opened CommandTypes
  import opened Files
  import FsUtil

  /** `fs'` differs from `fs` at most in the files at the paths in `touched`. */
  ghost predicate SameOutside(fs: FileSystem, fs': FileSystem, touched: set<string>) {
    && fs'.dirs == fs.dirs
    && (forall p | p !in touched :: p in fs'.files <==> p in fs.files)
    && (forall p | p !in touched && p in fs.files :: fs'.files[p] == fs.files[p])
  }

  lemma SameOutsideTrans(a: FileSystem, b: FileSystem, c: FileSystem, t: set<string>)
    requires SameOutside(a, b, t) && SameOutside(b, c, t)
    ensures SameOutside(a, c, t)
  {
  }

  /** The two temp files of a worker never coincide. */
  lemma TempPathsDistinct(workerPath: string)
    ensures TempConfigPath(workerPath) != TempBasePath(workerPath)
  {
    var a := TempConfigPath(workerPath);
    var b := TempBasePath(workerPath);
    if workerPath == "" {
      assert a[6] != b[6];
    } else {
      assert a[|workerPath| + 7] != b[|workerPath| + 7];
    }
  }

  /** Substitution leaves a config alone when none of the listed placeholders occurs in it. */
  lemma {:induction false} SubstituteWithoutPlaceholders(config: string, vars: Variables)
    requires forall i | 0 <= i < |vars| :: !Contains(config, Placeholder(vars[i].0))
    ensures Substitute(config, vars) == config
    decreases |vars|
  {
    if vars != [] {
      ReplaceAllAbsent(config, Placeholder(vars[0].0), vars[0].1);
      SubstituteWithoutPlaceholders(config, vars[1..]);
    }
  }

  /** A placeholder has `$` only where its key has, and opens once when its key has no `{`. */
  lemma PlaceholderChars(key: string)
    ensures '$' !in key ==> '$' !in Placeholder(key)
    ensures '{' !in key ==> OpensOnce(Placeholder(key))
  {
    var p := Placeholder(key);
    assert forall k | 0 < k < |p| - 1 :: p[k] == key[k - 1];
  }

  /**
   * A variable whose value is its own placeholder changes nothing, as long
   * as the key has no `$` (a `$&` or `$$` in the value would be expanded).
   */
  lemma {:induction false} SubstituteSelfEntries(config: string, vars: Variables)
    requires forall i | 0 <= i < |vars| :: vars[i].1 == Placeholder(vars[i].0) && '$' !in vars[i].0
    ensures Substitute(config, vars) == config
    decreases |vars|
  {
    if vars != [] {
      PlaceholderChars(vars[0].0);
      ReplaceAllSelf(config, Placeholder(vars[0].0));
      SubstituteSelfEntries(config, vars[1..]);
    }
  }

  /**
   * A config made of pieces around the first variable's placeholder, none
   * of which contains it, gets the value at exactly those places, provided
   * the key has no `{` and the value no `$`; the later variables then
   * apply to the result.
   */
  lemma SubstituteTemplate(pieces: seq<string>, key: string, value: string, rest: Variables)
    requires '{' !in key && '$' !in value
    requires forall k | 0 <= k < |pieces| :: !Contains(pieces[k], Placeholder(key))
    ensures Substitute(JoinWith(pieces, Placeholder(key)), [(key, value)] + rest) ==
            Substitute(JoinWith(pieces, value), rest)
  {
    PlaceholderChars(key);
    ReplaceAllTemplate(pieces, Placeholder(key), value);
    assert ([(key, value)] + rest)[0] == (key, value) && ([(key, value)] + rest)[1..] == rest;
  }

  lemma PatchConfigAtFrame(fs: FileSystem, w: Wrangler, p: string, patch: ConfigPatch, flag: bool, t: set<string>)
    requires p in t
    requires PatchConfigAt(fs, w, p, patch, flag).Ok?
    ensures SameOutside(fs, PatchConfigAt(fs, w, p, patch, flag).value.1, t)
    ensures p in PatchConfigAt(fs, w, p, patch, flag).value.1.files
    ensures PatchConfigAt(fs, w, p, patch, flag).value.1.files[p] == PatchConfigAt(fs, w, p, patch, flag).value.0
  {
  }

  lemma RemoveIfExistsFrame(fs: FileSystem, p: string, t: set<string>)
    requires p in t
    requires RemoveIfExists(fs, p).Ok?
    ensures SameOutside(fs, RemoveIfExists(fs, p).value, t)
  {
  }

  lemma CopyFrame(fs: FileSystem, from: string, to: string, t: set<string>)
    requires to in t
    requires Copy(fs, from, to).Ok?
    ensures SameOutside(fs, Copy(fs, from, to).value, t)
  {
  }

  lemma CopyInputsFrameIn(fs: FileSystem, o: ComposeOptions, t: set<string>)
    requires TempConfigPath(o.workerPath) in t
    requires o.baseConfigPath != "" ==> TempBasePath(o.workerPath) in t
    ensures SameOutside(fs, CopyInputs(fs, o).0, t)
  {
    var temp := TempConfigPath(o.workerPath);
    var removed := RemoveIfExists(fs, temp);
    if removed.Ok? {
      RemoveIfExistsFrame(fs, temp, t);
      var copied := Copy(removed.value, o.configPath, temp);
      if copied.Ok? {
        CopyFrame(removed.value, o.configPath, temp, t);
        SameOutsideTrans(fs, removed.value, copied.value, t);
        if o.baseConfigPath != "" {
          var tempBase := TempBasePath(o.workerPath);
          var removedBase := RemoveIfExists(copied.value, tempBase);
          if removedBase.Ok? {
            RemoveIfExistsFrame(copied.value, tempBase, t);
            SameOutsideTrans(fs, copied.value, removedBase.value, t);
            var copiedBase := Copy(removedBase.value, o.baseConfigPath, tempBase);
            if copiedBase.Ok? {
              CopyFrame(removedBase.value, o.baseConfigPath, tempBase, t);
              SameOutsideTrans(fs, removedBase.value, copiedBase.value, t);
            }
          }
        }
      }
    }
  }

  lemma CopyInputsFrame(fs: FileSystem, o: ComposeOptions)
    ensures SameOutside(fs, CopyInputs(fs, o).0, {TempConfigPath(o.workerPath), TempBasePath(o.workerPath)})
    ensures o.baseConfigPath == "" ==> SameOutside(fs, CopyInputs(fs, o).0, {TempConfigPath(o.workerPath)})
  {
    CopyInputsFrameIn(fs, o, {TempConfigPath(o.workerPath), TempBasePath(o.workerPath)});
    if o.baseConfigPath == "" {
      CopyInputsFrameIn(fs, o, {TempConfigPath(o.workerPath)});
    }
  }

  /** With a base config, the copy step leaves a verbatim snapshot of it at the base temp path. */
  lemma CopyInputsSnapshot(fs: FileSystem, o: ComposeOptions)
    requires o.baseConfigPath != "" && o.baseConfigPath != TempConfigPath(o.workerPath)
    requires CopyInputs(fs, o).1.Ok?
    ensures o.baseConfigPath in fs.files
    ensures TempBasePath(o.workerPath) in CopyInputs(fs, o).0.files
    ensures CopyInputs(fs, o).0.files[TempBasePath(o.workerPath)] == fs.files[o.baseConfigPath]
  {
    TempPathsDistinct(o.workerPath);
  }

  /**
   * A successful merge reads the base snapshot, patches the temp config
   * with it, replaces every `{workerName}` in the patched text (with
   * `replaceAll` semantics) and leaves exactly that text in the temp config.
   */
  lemma MergeContent(fs: FileSystem, w: Wrangler, workerName: string, workerPath: string)
    requires Merge(fs, w, workerName, workerPath).1.Ok?
    ensures var temp := TempConfigPath(workerPath);
      var base := ReadRawConfigAt(fs, w, TempBasePath(workerPath));
      && base.Ok? && temp in fs.files
      && w.patchConfig(fs.files[temp], MergeConfig(base.value), true).Ok?
      && var merged := ReplaceAll(w.patchConfig(fs.files[temp], MergeConfig(base.value), true).value,
                                  "{workerName}", workerName);
      && Merge(fs, w, workerName, workerPath).1.value == merged
      && temp in Merge(fs, w, workerName, workerPath).0.files
      && Merge(fs, w, workerName, workerPath).0.files[temp] == merged
  {
  }

  /**
   * When the patched text is pieces joined by `{workerName}`, none of
   * which contains it, and the worker name has no `$`, the merged config
   * is the same pieces joined by the worker name.
   */
  lemma MergeReplacesWorkerName(fs: FileSystem, w: Wrangler, workerName: string, workerPath: string, pieces: seq<string>)
    requires Merge(fs, w, workerName, workerPath).1.Ok? && '$' !in workerName
    requires forall k | 0 <= k < |pieces| :: !Contains(pieces[k], "{workerName}")
    requires var temp := TempConfigPath(workerPath);
      var base := ReadRawConfigAt(fs, w, TempBasePath(workerPath));
      base.Ok? && temp in fs.files &&
      w.patchConfig(fs.files[temp], MergeConfig(base.value), true) == Ok(JoinWith(pieces, "{workerName}"))
    ensures Merge(fs, w, workerName, workerPath).1.value == JoinWith(pieces, workerName)
  {
    MergeContent(fs, w, workerName, workerPath);
    assert OpensOnce("{workerName}");
    ReplaceAllTemplate(pieces, "{workerName}", workerName);
  }

  lemma MergeFrame(fs: FileSystem, w: Wrangler, workerName: string, workerPath: string)
    ensures SameOutside(fs, Merge(fs, w, workerName, workerPath).0, {TempConfigPath(workerPath)})
  {
    var t := {TempConfigPath(workerPath)};
    var baseRaw := ReadRawConfigAt(fs, w, TempBasePath(workerPath));
    if baseRaw.Ok? {
      var patched := PatchConfigAt(fs, w, TempConfigPath(workerPath), MergeConfig(baseRaw.value), true);
      if patched.Ok? {
        PatchConfigAtFrame(fs, w, TempConfigPath(workerPath), MergeConfig(baseRaw.value), true, t);
      }
    }
  }

  lemma FinishFrame(fs: FileSystem, w: Wrangler, o: ComposeOptions)
    ensures SameOutside(fs, Finish(fs, w, o).0, {TempConfigPath(o.workerPath)})
  {
    var temp := TempConfigPath(o.workerPath);
    var t := {temp};
    if fs.ReadFile(temp).Ok? {
      var written := fs.WriteFile(temp, Substitute(fs.ReadFile(temp).value, o.replaceValues));
      if written.Ok? {
        var fs1 := written.value;
        var raw := ReadRawConfigAt(fs1, w, temp);
        if raw.Ok? {
          var patch := SetName(SanitizeOptionalName(raw.value.name));
          if PatchConfigAt(fs1, w, temp, patch, true).Ok? {
            PatchConfigAtFrame(fs1, w, temp, patch, true, t);
            SameOutsideTrans(fs, fs1, Finish(fs, w, o).0, t);
          }
        }
      }
    }
  }

  /**
   * Composing a config writes at most the worker's two temp files, and the
   * base snapshot only when a base config is given.
   */
  lemma ComposeFrame(fs: FileSystem, w: Wrangler, o: ComposeOptions)
    ensures SameOutside(fs, Compose(fs, w, o).0, {TempConfigPath(o.workerPath), TempBasePath(o.workerPath)})
    ensures o.baseConfigPath == "" ==> SameOutside(fs, Compose(fs, w, o).0, {TempConfigPath(o.workerPath)})
  {
    var temp := TempConfigPath(o.workerPath);
    var both := {temp, TempBasePath(o.workerPath)};
    var t := if o.baseConfigPath == "" then {temp} else both;
    CopyInputsFrame(fs, o);
    var fs1 := CopyInputs(fs, o).0;
    if CopyInputs(fs, o).1.Ok? {
      var fs2 := if o.baseConfigPath == "" then fs1 else Merge(fs1, w, o.workerName, o.workerPath).0;
      if o.baseConfigPath != "" {
        MergeFrame(fs1, w, o.workerName, o.workerPath);
        SameOutsideTrans(fs, fs1, fs2, t);
      }
      FinishFrame(fs2, w, o);
      SameOutsideTrans(fs, fs2, Finish(fs2, w, o).0, t);
    }
    assert SameOutside(fs, Compose(fs, w, o).0, t);
  }

  /**
   * A successful composition returns the temp config path, and that file
   * exists; a failed one is a `FileOperationError` naming the worker.
   */
  lemma ComposeOutcome(fs: FileSystem, w: Wrangler, o: ComposeOptions)
    ensures var (fs', r) := Compose(fs, w, o);
      && (r.Ok? ==> r.value == TempConfigPath(o.workerPath) && TempConfigPath(o.workerPath) in fs'.files)
      && (r.Err? ==>
            && r.error.FileOperationError?
            && Contains(r.error.message, "Failed to create temporary wrangler config for " + o.workerName + ": "))
  {
    var temp := TempConfigPath(o.workerPath);
    var (fs', r) := Compose(fs, w, o);
    if r.Err? {
      var prefix := "Failed to create temporary wrangler config for " + o.workerName + ": ";
      assert r.error.message == prefix + ComposeSteps(fs, w, o).1.error;
      assert OccursAt(r.error.message, prefix, 0);
    } else {
      var (fs1, _) := CopyInputs(fs, o);
      var fs2 := if o.baseConfigPath == "" then fs1 else Merge(fs1, w, o.workerName, o.workerPath).0;
      var fs3 := fs2.WriteFile(temp, Substitute(fs2.ReadFile(temp).value, o.replaceValues)).value;
      var patch := SetName(SanitizeOptionalName(ReadRawConfigAt(fs3, w, temp).value.name));
      PatchConfigAtFrame(fs3, w, temp, patch, true, {temp});
    }
  }

  /**
   * Without a base config, the composed temp config is the worker's config
   * with every variable substituted, then patched with the sanitised name
   * that the substituted config declares.
   */
  lemma ComposeWithoutBaseContent(fs: FileSystem, w: Wrangler, o: ComposeOptions)
    requires o.baseConfigPath == ""
    requires Compose(fs, w, o).1.Ok?
    ensures o.configPath in fs.files && o.configPath != TempConfigPath(o.workerPath)
    ensures var text := Substitute(fs.files[o.configPath], o.replaceValues);
      && w.readRawConfig(text).Ok?
      && var patch := SetName(SanitizeOptionalName(w.readRawConfig(text).value.name));
      && w.patchConfig(text, patch, true).Ok?
      && TempConfigPath(o.workerPath) in Compose(fs, w, o).0.files
      && Compose(fs, w, o).0.files[TempConfigPath(o.workerPath)] == w.patchConfig(text, patch, true).value
  {
  }

  /** Where the base snapshot is copied from: the base config, or the fresh worker copy when the base path is the temp config itself. */
  function BaseSource(o: ComposeOptions): (p: string)
    ensures p == o.baseConfigPath || (o.baseConfigPath == TempConfigPath(o.workerPath) && p == o.configPath)
  {
    if o.baseConfigPath == TempConfigPath(o.workerPath) then o.configPath else o.baseConfigPath
  }

  /** A successful copy step leaves the worker config in the temp config and the base source in the base snapshot. */
  lemma CopyInputsContent(fs: FileSystem, o: ComposeOptions)
    requires o.baseConfigPath != "" && CopyInputs(fs, o).1.Ok?
    ensures var fs1 := CopyInputs(fs, o).0;
      && o.configPath in fs.files && o.configPath != TempConfigPath(o.workerPath)
      && BaseSource(o) in fs.files && o.baseConfigPath != TempBasePath(o.workerPath)
      && TempConfigPath(o.workerPath) in fs1.files && fs1.files[TempConfigPath(o.workerPath)] == fs.files[o.configPath]
      && TempBasePath(o.workerPath) in fs1.files && fs1.files[TempBasePath(o.workerPath)] == fs.files[BaseSource(o)]
  {
    var temp := TempConfigPath(o.workerPath);
    var tempBase := TempBasePath(o.workerPath);
    TempPathsDistinct(o.workerPath);
    var fs1 := RemoveIfExists(fs, temp).value;
    var fs2 := Copy(fs1, o.configPath, temp).value;
    var fs3 := RemoveIfExists(fs2, tempBase).value;
    RemoveIfExistsOk(fs, temp);
    CopyOk(fs1, o.configPath, temp);
    RemoveIfExistsOk(fs2, tempBase);
    CopyOk(fs3, o.baseConfigPath, tempBase);
    CopyTwice(fs, o.configPath, temp, o.baseConfigPath, tempBase);
  }

  /** A successful `RemoveIfExists` only drops the file at `p`. */
  lemma RemoveIfExistsOk(fs: FileSystem, p: string)
    requires RemoveIfExists(fs, p).Ok?
    ensures RemoveIfExists(fs, p).value == fs.(files := fs.files - {p})
  {
  }

  /** A successful copy reads an existing file and writes its text at `to`. */
  lemma CopyOk(fs: FileSystem, from: string, to: string)
    requires Copy(fs, from, to).Ok?
    ensures from in fs.files && Copy(fs, from, to).value == fs.(files := fs.files[to := fs.files[from]])
  {
  }

  /** Two fresh copies in a row, as the copy step makes them: the second reads the first's target when it is its source. */
  lemma CopyTwice(fs: FileSystem, src1: string, dst1: string, src2: string, dst2: string)
    requires dst1 != dst2
    requires src1 in fs.files - {dst1}
    requires src2 in (fs.files - {dst1})[dst1 := fs.files[src1]] - {dst2}
    ensures src1 != dst1 && src2 != dst2
    ensures var f := ((fs.files - {dst1})[dst1 := fs.files[src1]] - {dst2})[dst2 := ((fs.files - {dst1})[dst1 := fs.files[src1]] - {dst2})[src2]];
      && dst1 in f && f[dst1] == fs.files[src1]
      && dst2 in f && f[dst2] == (if src2 == dst1 then fs.files[src1] else fs.files[src2])
  {
  }

  /**
   * A successful finish substitutes the variables into the temp config and
   * patches in the sanitised name the substituted config declares.
   */
  lemma FinishContent(fs: FileSystem, w: Wrangler, o: ComposeOptions)
    requires Finish(fs, w, o).1.Ok?
    ensures var temp := TempConfigPath(o.workerPath);
      && temp in fs.files
      && var text := Substitute(fs.files[temp], o.replaceValues);
      && w.readRawConfig(text).Ok?
      && var patch := SetName(SanitizeOptionalName(w.readRawConfig(text).value.name));
      && w.patchConfig(text, patch, true).Ok?
      && temp in Finish(fs, w, o).0.files
      && Finish(fs, w, o).0.files[temp] == w.patchConfig(text, patch, true).value
  {
  }

  /**
   * With a base config, the composed temp config is the worker's config
   * patched with the parsed base, with `{workerName}` replaced, every
   * variable substituted, and finally patched with the sanitised name the
   * result declares.
   */
  lemma ComposeWithBaseContent(fs: FileSystem, w: Wrangler, o: ComposeOptions)
    requires o.baseConfigPath != ""
    requires Compose(fs, w, o).1.Ok?
    ensures o.configPath in fs.files && BaseSource(o) in fs.files
    ensures var base := w.readRawConfig(fs.files[BaseSource(o)]);
      && base.Ok?
      && w.patchConfig(fs.files[o.configPath], MergeConfig(base.value), true).Ok?
      && var merged := ReplaceAll(w.patchConfig(fs.files[o.configPath], MergeConfig(base.value), true).value,
                                  "{workerName}", o.workerName);
      && var text := Substitute(merged, o.replaceValues);
      && w.readRawConfig(text).Ok?
      && var patch := SetName(SanitizeOptionalName(w.readRawConfig(text).value.name));
      && w.patchConfig(text, patch, true).Ok?
      && TempConfigPath(o.workerPath) in Compose(fs, w, o).0.files
      && Compose(fs, w, o).0.files[TempConfigPath(o.workerPath)] == w.patchConfig(text, patch, true).value
  {
    var fs1 := CopyInputs(fs, o).0;
    CopyInputsContent(fs, o);
    MergeContent(fs1, w, o.workerName, o.workerPath);
    FinishContent(Merge(fs1, w, o.workerName, o.workerPath).0, w, o);
  }

  /**
   * With a base config, the base snapshot is a verbatim copy of the base
   * config (unless the base config is the temp config itself).
   */
  lemma ComposeSnapshotsBase(fs: FileSystem, w: Wrangler, o: ComposeOptions)
    requires o.baseConfigPath != "" && o.baseConfigPath != TempConfigPath(o.workerPath)
    requires Compose(fs, w, o).1.Ok?
    ensures o.baseConfigPath in fs.files
    ensures TempBasePath(o.workerPath) in Compose(fs, w, o).0.files
    ensures Compose(fs, w, o).0.files[TempBasePath(o.workerPath)] == fs.files[o.baseConfigPath]
  {
    var temp := TempConfigPath(o.workerPath);
    var tempBase := TempBasePath(o.workerPath);
    TempPathsDistinct(o.workerPath);
    CopyInputsSnapshot(fs, o);
    var fs1 := CopyInputs(fs, o).0;
    var fs2 := Merge(fs1, w, o.workerName, o.workerPath).0;
    MergeFrame(fs1, w, o.workerName, o.workerPath);
    FinishFrame(fs2, w, o);
  }

  /** Cleanup only deletes files. */
  lemma {:induction false} CleanupFrame(fs: FileSystem, paths: seq<string>)
    ensures Cleanup(fs, paths).0.dirs == fs.dirs
    ensures Cleanup(fs, paths).0.files.Keys <= fs.files.Keys
    ensures forall p | p in Cleanup(fs, paths).0.files :: Cleanup(fs, paths).0.files[p] == fs.files[p]
    decreases |paths|
  {
    if paths != [] {
      var fs1 := if fs.Exists(paths[0]) && fs.Unlink(paths[0]).Ok? then fs.Unlink(paths[0]).value else fs;
      CleanupFrame(fs1, paths[1..]);
    }
  }

  /**
   * After cleanup none of the tracked paths is a file any more, and the
   * only output is one warning per tracked path that could not be deleted.
   */
  lemma {:induction false} CleanupRemovesTrackedFiles(fs: FileSystem, paths: seq<string>)
    ensures forall i | 0 <= i < |paths| :: paths[i] !in Cleanup(fs, paths).0.files
    ensures |Cleanup(fs, paths).1| <= |paths|
    ensures forall e | e in Cleanup(fs, paths).1 ::
      e.Warned? && Contains(e.message, "Failed to delete temporary file: ")
    decreases |paths|
  {
    if paths != [] {
      var p := paths[0];
      var fs1 := if fs.Exists(p) && fs.Unlink(p).Ok? then fs.Unlink(p).value else fs;
      assert p !in fs1.files;
      CleanupRemovesTrackedFiles(fs1, paths[1..]);
      CleanupFrame(fs1, paths[1..]);
      var msg := "Failed to delete temporary file: " + p;
      assert OccursAt(msg, "Failed to delete temporary file: ", 0);
      forall i | 0 <= i < |paths|
        ensures paths[i] !in Cleanup(fs, paths).0.files
      {
        if i > 0 {
          assert paths[i] == paths[1..][i - 1];
        }
      }
    }
  }

  /** After `addGitignore` succeeds, the file includes every line asked for. */
  lemma {:induction false} AddLinesContainsAll(fs: FileSystem, path: string, lines: seq<string>)
    requires AddLines(fs, path, lines).1.Ok?
    ensures path in AddLines(fs, path, lines).0.files || lines == []
    ensures forall i | 0 <= i < |lines| :: Contains(AddLines(fs, path, lines).0.files[path], lines[i])
    decreases |lines|
  {
    if lines != [] {
      var fs1 := FsUtil.AppendLineTo(fs, path, lines[0], true).value;
      FsUtil.AppendLineContains(fs, path, lines[0], true);
      AddLinesContainsAll(fs1, path, lines[1..]);
      var k := AddLinesGrowsBy(fs1, path, lines[1..]);
      var text := AddLines(fs, path, lines).0.files[path];
      forall i | 0 <= i < |lines| ensures Contains(text, lines[i]) {
        if i == 0 {
          ContainsExtend(fs1.files[path], k, lines[0]);
        } else {
          assert lines[i] == lines[1..][i - 1];
        }
      }
    }
  }

  /** `addGitignore` only ever appends to a file that exists. */
  lemma {:induction false} AddLinesGrowsBy(fs: FileSystem, path: string, lines: seq<string>) returns (more: string)
    requires path in fs.files
    ensures path in AddLines(fs, path, lines).0.files
    ensures AddLines(fs, path, lines).0.files[path] == fs.files[path] + more
    decreases |lines|
  {
    if lines == [] {
      more := "";
    } else {
      match FsUtil.AppendLineTo(fs, path, lines[0], true)
      case Err(_) =>
        more := "";
      case Ok(fs1) =>
        var step := if Contains(fs.files[path], lines[0]) then "" else "\n" + lines[0];
        assert fs1.files[path] == fs.files[path] + step;
        var rest := AddLinesGrowsBy(fs1, path, lines[1..]);
        more := step + rest;
    }
  }
}
