/** Process-wide constants of the studio (frame size, frame rate, directories). */
module Config {

  /** Output frame in pixels: portrait 9:16. */
  const VideoWidth: nat := 1080
  const VideoHeight: nat := 1920
  const Fps: nat := 30

  /** Directories, relative to the project base directory. */
  const MusicDir: string := "assets/music"
  const TempDir: string := "assets/temp"
  const DataDir: string := "data"
  const OutputDir: string := "data/output"

  /** `os.path.join(dir, name)` for a relative directory and a plain file name. */
  function JoinPath(dir: string, name: string): (p: string)
    ensures |p| == |dir| + 1 + |name|
    ensures p[..|dir|] == dir && p[|dir|] == '/' && p[|dir| + 1..] == name
  {
    dir + "/" + name
  }

  /** Within one directory, different file names give different paths. */
  lemma JoinPathInjective(dir: string, a: string, b: string)
    ensures JoinPath(dir, a) == JoinPath(dir, b) <==> a == b
  {
    if JoinPath(dir, a) == JoinPath(dir, b) {
      assert a == JoinPath(dir, a)[|dir| + 1..];
    }
  }
}
