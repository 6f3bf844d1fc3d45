/**
  `get_os_path` and the image-attachment path built inside `main` (main.py):
  `image_folder_path + get_os_path() + str(randint) + '.jpg'`, with the
  `randint` drawn from 1..10 and the whole step skipped when the folder is
  blank. `platform.system() == 'Windows'` is the parameter `isWindows`.
 */
module ImagePath {
  import opened Wrappers
  import opened PyText

  const MIN_IMAGE: nat := 1
  const MAX_IMAGE: nat := 10
  const EXTENSION := ".jpg"

  /** `get_os_path()`: a backslash on Windows, a slash everywhere else. */
  function GetOsPath(isWindows: bool): (sep: string)
    ensures |sep| == 1
    ensures sep[0] == '\\' <==> isWindows
    ensures sep[0] == '/' <==> !isWindows
  {
    if isWindows then "\\" else "/"
  }

  /** The path of image number `k` in `folder`, the folder text taken as given (not stripped). */
  function BuildPath(folder: string, isWindows: bool, k: nat): (path: string)
    requires MIN_IMAGE <= k <= MAX_IMAGE
    ensures |path| > |folder| + 1 + |EXTENSION|
    ensures path[..|folder|] == folder && path[|folder|..|folder| + 1] == GetOsPath(isWindows)
    ensures EndsWith(path, EXTENSION)
    ensures ParseCanonical(path[|folder| + 1..|path| - |EXTENSION|]) == Some(k)
  {
    var digits := Str(k);
    StrRoundTrip(k);
    var path := folder + GetOsPath(isWindows) + digits + EXTENSION;
    assert path[|folder| + 1..|path| - |EXTENSION|] == digits;
    path
  }

  /** Recovers the image number from a path under `folder`, if it has the form `BuildPath` builds. */
  function ImageIndex(path: string, folder: string, isWindows: bool): Option<nat> {
    var prefix := folder + GetOsPath(isWindows);
    if |prefix| + |EXTENSION| <= |path| && path[..|prefix|] == prefix
       && path[|path| - |EXTENSION|..] == EXTENSION
    then ParseCanonical(path[|prefix|..|path| - |EXTENSION|])
    else None
  }

  /** The image number can be read back from the path. */
  lemma ImagePathRoundTrip(folder: string, isWindows: bool, k: nat)
    requires MIN_IMAGE <= k <= MAX_IMAGE
    ensures ImageIndex(BuildPath(folder, isWindows, k), folder, isWindows) == Some(k)
  {
  }

  /** A path of that form with a number in 1..10 is exactly the one `BuildPath` builds. */
  lemma ImageIndexSound(path: string, folder: string, isWindows: bool, k: nat)
    requires ImageIndex(path, folder, isWindows) == Some(k)
    requires MIN_IMAGE <= k <= MAX_IMAGE
    ensures BuildPath(folder, isWindows, k) == path
  {
    var prefix := folder + GetOsPath(isWindows);
    var digits := path[|prefix|..|path| - |EXTENSION|];
    ParseRoundTrip(digits, k);
    assert path == path[..|prefix|] + digits + path[|path| - |EXTENSION|..];
  }

  /** Only the ten file names 1.jpg .. 10.jpg are ever attached. */
  lemma ImageFileNames(k: nat)
    requires MIN_IMAGE <= k <= MAX_IMAGE
    ensures Str(k) + EXTENSION in
      {"1.jpg", "2.jpg", "3.jpg", "4.jpg", "5.jpg", "6.jpg", "7.jpg", "8.jpg", "9.jpg", "10.jpg"}
  {
    if k == 10 {
      assert Str(10) == Str(1) + [DigitChar(0)] == "10";
      assert Str(k) + EXTENSION == "10.jpg";
    } else {
      var names := ["1.jpg", "2.jpg", "3.jpg", "4.jpg", "5.jpg", "6.jpg", "7.jpg", "8.jpg", "9.jpg"];
      assert Str(k) == [DigitChar(k)] == ["123456789"[k - 1]];
      assert Str(k) + EXTENSION == names[k - 1];
    }
  }

  /**
    The attachment step of one post: a path when `image_folder_path.strip()`
    is non-empty, that is when the folder has a non-whitespace character, and
    no attachment otherwise. The path uses the folder text unstripped.
   */
  function AttachmentPath(folder: string, isWindows: bool, k: nat): (r: Option<string>)
    requires MIN_IMAGE <= k <= MAX_IMAGE
    ensures r.Some? <==> !AllSpace(folder)
    ensures r.Some? ==> r.value == BuildPath(folder, isWindows, k)
  {
    if Strip(folder) != "" then Some(BuildPath(folder, isWindows, k)) else None
  }
}
