# ZNLAUTOPOST post text and image path, in Dafny

ZNLAUTOPOST is a script that opens Weibo's login page in a browser, waits for
the user to sign in by hand (it handles no credentials, and a timeout is only
logged), then publishes a number of posts to one "super topic" page.
The only parts of `main.py` whose behaviour can be stated without a browser
are modelled here:

- `generate_znl_text(content)`: the body of one post, built from the content
  record (`content.json`). It concatenates `tags1`, an emoji, `tags2`, a newline,
  a `znlText` entry, two emoji, a newline, an `exText` entry, " 伯远", two emoji,
  a space, an optional random number in 0..888888, a newline, the mention
  "@INTO1-伯远 " (with its trailing space) and a final newline. Any exception
  (a missing key, `random.choice` on an empty list) is logged and the function
  returns "".
- `get_os_path()` and the attachment path `image_folder_path + get_os_path() +
  str(randint) + '.jpg'` with `randint` in 1..10. It is built only when
  `image_folder_path.strip() != ''`.

Randomness is made explicit. `ZnlText.Randomness` carries the `randint` value
and the seven indices chosen by `random.choice`. `ZnlText.Admissible` says which
draws the random module can produce. The image number `k` is a parameter in
1..10. `platform.system() == 'Windows'` is the boolean `isWindows`.

Files:

- `wrappers.dfy` (`Wrappers`): `Option` and a failure-compatible `Result`.
- `pytext.dfy` (`PyText`): the Python built-ins the code relies on. These are
  `str(n)` for `n >= 0` (`Str`, with its inverse `ParseCanonical`), `str.strip()`
  (`LStrip`, `RStrip`, `Strip`, with `IsSpace` following `str.isspace`),
  `str.split` on one character and `str.endswith`. The last two are used only
  in contracts, to state the shape of a post and of the image path.
- `znl_text.dfy` (`ZnlText`): the content record, the exception-by-exception
  evaluation of the `try` body (`Evaluate`) and `GenerateZnlText`. It also holds
  a declarative description of a post (`Draw`, `Layout`, `DrawFrom`), with
  lemmas showing the generator produces exactly the layouts of allowed draws.
- `image_path.dfy` (`ImagePath`): `GetOsPath`, `BuildPath`, its inverse
  `ImageIndex`, and the guarded `AttachmentPath`.

Some consequences of the code that are easy to miss:

- `main.py` does not list the image folder or check which files it holds. It
  always names `<folder><sep><1..10>.jpg`, whether such a file exists or not.
- When generation fails, `generate_znl_text` returns "" and `main` still types
  it and clicks "post" (main.py:133-157). That loop is not modelled. The model
  proves that "" is returned exactly when generation fails.
- A post has four newline-ended lines when neither tag nor any drawn entry
  contains a newline; entries that were not drawn do not matter.
  `ZnlText.FourLines` is stated under that hypothesis.
- Image mode is enabled when the folder is non-blank after `strip()`, not just
  non-empty. The path itself uses the folder unstripped.

## Model

| member | source | states |
|---|---|---|
| `ZnlText.Lookup` | main.py:81-90 | `content[key]` gives the stored value when the key is present, and raises `KeyError(key)` otherwise |
| `ZnlText.Choice` | main.py:83-90 | `random.choice` on a non-empty list gives an element of that list; on an empty list it raises `IndexError` |
| `ZnlText.Evaluate` | main.py:80-91 | the `try` body succeeds exactly when all six keys are present and the three lists are non-empty; a success ends with "\n@INTO1-伯远 \n"; a `KeyError` names a missing key, and an `IndexError` means one of the lists is empty |
| `ZnlText.GenerateZnlText` | main.py:77-95 | the result is "" exactly when the record is malformed (a key missing or a list empty), and never raises; a non-empty result ends with the mention suffix |
| `ZnlText.DrawOfAllowed` | main.py:80-91 | the pieces the draws select are allowed by the content: five emoji from `emoji`, one entry of `znlText`, one of `exText`, and a number slot that is "" without withRandNum and otherwise a canonical decimal of some value up to 888888 |
| `ZnlText.GenerateSound` | main.py:82-91 | a successful post is the four-line layout of `tags1`, `tags2` and the pieces its draws select |
| `ZnlText.GenerateComplete` | main.py:80-91 | every such layout is produced by some admissible draws; the five emoji are independent and may repeat, and every number 0..888888 can appear |
| `ZnlText.NumberSlot` | main.py:80-81 | the third line ends with " " followed by nothing when withRandNum is false, or by `str(n)` of the drawn `n` when it is true |
| `ZnlText.FourLines` | main.py:82-91 | when neither tag nor any drawn entry contains a newline, `text.split('\n')` is exactly the three content lines, the mention and a final "" |
| `PyText.Str` | main.py:80 | `str(n)` is non-empty, all digits, and starts with '0' only for n = 0 |
| `PyText.StrRoundTrip` | main.py:80 | parsing `str(n)` back gives `n` |
| `PyText.ParseRoundTrip` | main.py:80 | every canonical decimal string is `str` of the number it denotes |
| `PyText.StrInjective` | main.py:80 | distinct numbers give distinct number slots |
| `PyText.LStrip` | main.py:143 | `lstrip` removes exactly the longest all-whitespace prefix |
| `PyText.RStrip` | main.py:143 | `rstrip` removes exactly the longest all-whitespace suffix |
| `PyText.Strip` | main.py:143 | `s.strip() == ''` exactly when every character of `s` is whitespace |
| `ImagePath.GetOsPath` | main.py:70-74 | the separator is one character: a backslash exactly on Windows, a slash exactly elsewhere |
| `ImagePath.BuildPath` | main.py:145 | the path starts with the folder text as given, then the one-character separator, ends with ".jpg", and what lies between is the canonical decimal of `k` |
| `ImagePath.ImagePathRoundTrip` | main.py:144-145 | the image number can be read back from the built path |
| `ImagePath.ImageIndexSound` | main.py:144-145 | any path of the form folder + separator + number + ".jpg" with a number in 1..10 is the one built for that number |
| `ImagePath.ImageFileNames` | main.py:144-146 | the attached file name is one of "1.jpg" .. "10.jpg" |
| `ImagePath.AttachmentPath` | main.py:143-145 | a path is built exactly when the folder has a non-whitespace character, and it uses the folder text unstripped |

## Left out

- `WebDriver.resource_path` and `WebDriver.chrome` (main.py:24-59): browser construction and PyInstaller path lookup are foreign-library and environment calls.
- `wait_element_to_present` (main.py:62-67): a Selenium wait that only logs a timeout.
- `main` (main.py:98-162): navigation, element lookup, clicks, `send_keys`, `time.sleep` delays, `driver.close()` and the `for i in range(num_of_posts)` loop are all browser I/O. Only the attachment path expression and its guard (main.py:143-145) are modelled.
- Reading `input.json` and `content.json` (main.py:118-126) is file I/O; the content record is modelled as an already-decoded `ZnlText.Content` whose absent keys are `None`.
- Logging (main.py:17-21, 93 and elsewhere) is a side channel. `ZnlText.Evaluate` keeps the exception that would be logged, but only its presence affects the result.
- The random number generator and `platform.system()` are parameters (`ZnlText.Randomness`, the index `k`, `isWindows`). Uniformity of the draws is not modelled, only their ranges.
- Ill-typed JSON values (a number where a string is expected, a string instead of a list, a non-boolean `withRandNum` tested for truthiness) are excluded by the types. In Python they would raise `TypeError`, which also becomes "", or behave differently.
- Python strings may hold lone surrogate code points; Dafny characters cannot.
