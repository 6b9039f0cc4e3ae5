/** `appendLine` (src/utils/fs.ts). */
module FsUtil {
  import opened Wrappers
  import opened Strings
  import opened Host

  /**
   * The disk after `appendLine(path, line, check)`: a missing file is
   * created holding the line; with `check`, a file whose text already
   * includes the line is left alone; otherwise `"\n" + line` is appended.
   * A directory at `path` makes the read or the append fail.
   */
  function AppendLineTo(fs: FileSystem, path: string, line: string, check: bool): Result<FileSystem, string> {
    if !fs.Exists(path) then fs.WriteFile(path, line)
    else if check && path !in fs.files then Err("EISDIR: illegal operation on a directory, read")
    else if check && Contains(fs.files[path], line) then Ok(fs)
    else if path !in fs.files then Err("EISDIR: illegal operation on a directory, open '" + path + "'")
    else fs.WriteFile(path, fs.files[path] + "\n" + line)
  }

  method AppendLine(world: World, path: string, line: string, check: bool) returns (r: Result<Unit, string>)
    modifies world
    ensures world.events == old(world.events)
    ensures var spec := AppendLineTo(old(world.fs), path, line, check);
      && (r.Ok? <==> spec.Ok?)
      && (r.Ok? ==> world.fs == spec.value)
      && (r.Err? ==> world.fs == old(world.fs) && r.error == spec.error)
  {
    if !world.fs.Exists(path) {
      r := world.WriteFile(path, line);
      return;
    }
    if check {
      var content :- world.fs.ReadFile(path);
      if Contains(content, line) {
        return Ok(Unit);
      }
    }
    if path !in world.fs.files {
      return Err("EISDIR: illegal operation on a directory, open '" + path + "'");
    }
    var appended := world.fs.files[path] + "\n" + line;
    r := world.WriteFile(path, appended);
  }

  /** After a successful append the file exists and includes the line; nothing else changes. */
  lemma AppendLineContains(fs: FileSystem, path: string, line: string, check: bool)
    requires AppendLineTo(fs, path, line, check).Ok?
    ensures var fs' := AppendLineTo(fs, path, line, check).value;
      && path in fs'.files && Contains(fs'.files[path], line)
      && fs'.dirs == fs.dirs
      && (forall p | p != path :: (p in fs'.files <==> p in fs.files))
      && (forall p | p != path && p in fs.files :: fs'.files[p] == fs.files[p])
  {
    var fs' := AppendLineTo(fs, path, line, check).value;
    var text := fs'.files[path];
    if !fs.Exists(path) {
      assert OccursAt(text, line, 0);
    } else if !(check && Contains(fs.files[path], line)) {
      assert OccursAt(text, line, |fs.files[path]| + 1);
    }
  }

  /** A missing file is created holding exactly the line, with no newline. */
  lemma AppendLineCreates(fs: FileSystem, path: string, line: string, check: bool)
    requires !fs.Exists(path)
    ensures AppendLineTo(fs, path, line, check) == Ok(fs.(files := fs.files[path := line]))
  {
  }

  /** With the check, appending the same line again changes nothing. */
  lemma AppendLineCheckedIdempotent(fs: FileSystem, path: string, line: string)
    requires AppendLineTo(fs, path, line, true).Ok?
    ensures var fs' := AppendLineTo(fs, path, line, true).value;
      AppendLineTo(fs', path, line, true) == Ok(fs')
  {
    AppendLineContains(fs, path, line, true);
  }

  /**
   * Without the check, an existing file grows by `"\n" + line` even when it
   * already includes the line; with it, the test is for a substring, not a
   * whole line.
   */
  lemma AppendLineUnchecked(fs: FileSystem, path: string, line: string)
    requires fs.Valid() && path in fs.files
    ensures AppendLineTo(fs, path, line, false) ==
            Ok(fs.(files := fs.files[path := fs.files[path] + "\n" + line]))
    ensures Contains(fs.files[path], line) ==> AppendLineTo(fs, path, line, true) == Ok(fs)
  {
  }
}
