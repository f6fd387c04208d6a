/**
 * main.cpp, first lines of main: exe_folder is exe_path with its last path
 * component popped off one character at a time, so that the shader files
 * can be found relative to the executable.
 */
module ExePath {
  import opened Wrappers

  /**
   * The folder of a path: its longest prefix that is empty or ends in '/'.
   * The characters after it hold no '/'.
   */
  function FolderOf(path: string): (folder: string)
    ensures folder <= path
    ensures folder == [] || folder[|folder| - 1] == '/'
    ensures forall i :: |folder| <= i < |path| ==> path[i] != '/'
  {
    if path == [] || path[|path| - 1] == '/' then path
    else FolderOf(path[..|path| - 1])
  }

  /** Taking the folder twice changes nothing. */
  lemma FolderOfIdempotent(path: string)
    ensures FolderOf(FolderOf(path)) == FolderOf(path)
  {
  }

  /**
   * The trim loop with its two tests in the safe order: the length is
   * checked before back() is read, so a path with no '/' yields "".
   */
  method ExeFolder(exePath: string) returns (exeFolder: string)
    ensures exeFolder == FolderOf(exePath)
  {
    exeFolder := exePath;
    while |exeFolder| != 0 && exeFolder[|exeFolder| - 1] != '/'
      invariant FolderOf(exeFolder) == FolderOf(exePath)
      decreases |exeFolder|
    {
      exeFolder := exeFolder[..|exeFolder| - 1];
    }
  }

  /**
   * The trim loop as written: back() is read before the length is checked,
   * so once the string is empty the next test reads back() of an empty
   * std::string, which is undefined (None). The length test never fails
   * while back() is defined.
   */
  method ExeFolderAsWritten(exePath: string) returns (exeFolder: Option<string>)
    ensures exeFolder.None? <==> '/' !in exePath
    ensures exeFolder.Some? ==> exeFolder.value == FolderOf(exePath)
  {
    var folder := exePath;
    while true
      invariant folder <= exePath
      invariant FolderOf(folder) == FolderOf(exePath)
      invariant forall i :: |folder| <= i < |exePath| ==> exePath[i] != '/'
      decreases |folder|
    {
      if |folder| == 0 {
        return None;
      }
      if folder[|folder| - 1] == '/' {
        assert exePath[|folder| - 1] == '/';
        return Some(folder);
      }
      folder := folder[..|folder| - 1];
    }
  }

  /** A bare file name such as "a.out" drives the loop as written onto an empty string. */
  lemma BareNameReachesEmptyString()
    ensures '/' !in "a.out"
    ensures FolderOf("a.out") == ""
  {
  }
}
