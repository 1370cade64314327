/** The output-file path both the activity (getOutputPath) and the legacy
    service (startRecording) build: `<movies directory>/screen_recording.mp4`. */
module Paths {
  import opened Optional

  const RECORDING_FILE_NAME: string := "screen_recording.mp4"
  /** Build.VERSION_CODES.Q */
  const SDK_Q: int := 29

  /** The string template `"${dir}/${name}"`. */
  function Join(dir: string, name: string): string {
    dir + "/" + name
  }

  /** Index of the last '/' in `p`, if there is one. */
  function LastSlash(p: string): (r: Option<nat>)
    ensures r.Some? ==> r.value < |p| && p[r.value] == '/'
    ensures r.Some? ==> forall i :: r.value < i < |p| ==> p[i] != '/'
    ensures r.None? ==> forall i :: 0 <= i < |p| ==> p[i] != '/'
  {
    if p == [] then None
    else if p[|p| - 1] == '/' then Some(|p| - 1)
    else LastSlash(p[..|p| - 1])
  }

  /** The file-name part of a path: what follows its last '/'. */
  function BaseName(p: string): string {
    match LastSlash(p)
    case None => p
    case Some(k) => p[k + 1..]
  }

  /** The directory part of a path: what precedes its last '/'. */
  function Parent(p: string): Option<string> {
    match LastSlash(p)
    case None => None
    case Some(k) => Some(p[..k])
  }

  /** Joining a directory and a plain file name can be undone: the file name
      and the directory are recovered whatever the directory contains. */
  lemma SplitJoin(dir: string, name: string)
    requires forall i :: 0 <= i < |name| ==> name[i] != '/'
    ensures BaseName(Join(dir, name)) == name
    ensures Parent(Join(dir, name)) == Some(dir)
  {
    var p := Join(dir, name);
    assert p[|dir|] == '/';
    assert forall i :: |dir| < i < |p| ==> p[i] == name[i - |dir| - 1];
    var r := LastSlash(p);
    assert r == Some(|dir|);
    assert p[|dir| + 1..] == name;
    assert p[..|dir|] == dir;
  }

  /** getOutputPath: up to Android 10 (Q) the app-specific movies directory,
      after it the shared public movies directory, and a fixed file name. */
  function RecordingOutputPath(sdk: int, appMoviesDir: string, publicMoviesDir: string): string {
    Join(if sdk <= SDK_Q then appMoviesDir else publicMoviesDir, RECORDING_FILE_NAME)
  }

  /** Both branches of getOutputPath name the same file; only the directory
      depends on the platform version. */
  lemma OutputPathShape(sdk: int, appMoviesDir: string, publicMoviesDir: string)
    ensures BaseName(RecordingOutputPath(sdk, appMoviesDir, publicMoviesDir)) == RECORDING_FILE_NAME
    ensures sdk <= SDK_Q ==> Parent(RecordingOutputPath(sdk, appMoviesDir, publicMoviesDir)) == Some(appMoviesDir)
    ensures sdk > SDK_Q ==> Parent(RecordingOutputPath(sdk, appMoviesDir, publicMoviesDir)) == Some(publicMoviesDir)
  {
    SplitJoin(if sdk <= SDK_Q then appMoviesDir else publicMoviesDir, RECORDING_FILE_NAME);
  }
}
