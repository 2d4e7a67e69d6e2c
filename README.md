# CodeCanvas: a verified model of captcha dataset generation

`CodeCanvas` (main.py) generates a labelled captcha dataset. A run does the following:

- It extends its alphabet (`characters`) with the enabled character classes.
- It picks a rendering backend by name.
- It wipes and recreates the project directory and writes the header of `dataframe.csv`.
- It performs `range(num_captchas)` passes, none when `num_captchas` is not positive. Each pass chooses a label length and calls the backend:
  - `captcha` draws a label from the alphabet and renders it;
  - `gvcode` takes both image and label from the library;
  - `pillow` does nothing and stores nothing.

  The first two store the image as `{label}_{sha1}.png` and append that same name and the label as a row of the index.

This project models that bookkeeping in Dafny and proves what it guarantees.

## Structure

| file | module | contents |
|---|---|---|
| errors.dfy | `Errors` | `Option`, `Result` and the three exceptions of a run: `ValueError("Unsupported library")`, the empty-range `ValueError` of `random.randint`, and the `IndexError` of `random.choice` on an empty sequence. Also `RangeLen`, the length of Python's `range(n)`. |
| alphabet.dfy | `Alphabet` | The four character classes, and `Enabled`, the characters one call appends. Proves which characters these are and in what order. |
| backends.dfy | `Backends` | The closed backend table `lib_map` and its lookup. |
| sampling.dfy | `Sampling` | `random.randint`, `random.choice` and the label join over an explicit stream of raw draws. Also the label-length policy. |
| naming.dfy | `Naming` | The content-addressed file name and the CSV rows. The file name has a parser, with its round trip proved. |
| generation.dfy | `Generation` | The specification of a whole run as a function, `Generate`, and its properties. There is one pass of the loop (`Iteration`), the loop itself (`Loop`), and the state after the header and the pre-loop draw (`Prepared`). |
| canvas.dfy | `Canvas` | The imperative model. `class Random` is Python's global random state. `class CodeCanvas` has the source's fields and methods. `GenerateCaptcha` loops over the samples, appending to the `csv` field and updating the `images` map. Each method is proved against the functions in `Generation`. |

### Modelling decisions

- **Randomness.** This is an oracle `Stream = nat -> nat` plus a position.
  - `randint(lo, hi)` consumes one draw `d` and yields `lo + d % (hi - lo + 1)`. It raises, without consuming a draw, when `lo > hi`.
  - `choice(s)` yields `s[d % |s|]`. It raises when `s` is empty.
  - Lemmas `RandIntCovers` and `LabelReachable` show that the reduction excludes no outcome: every value in range and every label over the alphabet is produced by some stream.
- **Foreign collaborators.** These are the function fields of `Env`:
  - `render` stands for `ImageCaptcha().generate_image`. It is indexed by the position of the sample within one run, which stands for the random colours, noise dots and curves of the image. Two samples with equal labels may therefore get different images, digests and files;
  - `png` stands for the in-memory PNG encoding;
  - `sha1` stands for `hashlib.sha1(...).hexdigest()`;
  - `gvcode` stands for `gvcode.generate`. It is indexed by the position of the sample within one run, which stands for the library's own hidden state. Two runs over the same `Env` therefore see the same `gvcode` results.

  Results that rely on the digest being 40 lower-case hex characters carry the assumption `HexHashes(env)`.
- **File system.** The project directory is a map from file name to image, plus the sequence of CSV rows. The flag `projectExists` records that the directories exist. Wiping and recreating the directory (main.py:64-69) leaves the map empty. Writing the header leaves the index holding only the header row.
- **Integers.** `captcha_length`, the length bounds and `num_captchas` are unbounded `int`s. As in Python, a negative count or length gives an empty `range`, so there are no iterations and the label is empty.
- **The length draw before the loop.** This is main.py:75-76. When both bounds are given, `captcha_length` is drawn once before the loop and then drawn again in every pass. The first value is never used, but the draw consumes randomness. It also raises on an empty range even when `num_captchas` is 0. Both effects are modelled (`Prepared`, `GenerateEmptyRange`, `GenerateDraws`).

### Behaviour of the code worth knowing
- **Empty alphabet.** Nothing checks the alphabet. With `captcha` and a positive length, an empty alphabet raises only at `random.choice` (main.py:86), after the directories and the CSV header already exist (`GenerateEmptyAlphabet`). With `gvcode` or `pillow`, or with a label length of 0 or less, main.py itself raises nothing.
- **Unknown backend.** The `ValueError` leaves the directory and the index untouched, but `characters` has already been extended (main.py:47-62, `GenerateCaptcha`).
- **Repeated runs.** Every call of `generate_captcha` appends the enabled classes to `characters` again, so a second run duplicates them (main.py:22, main.py:47-54, `TwoRuns`).
- **Number of image files.** A repeated file name overwrites the earlier file (main.py:111), so only the row count is exact (`GenerateComplete`). There are exactly as many files as data rows if and only if no two rows name the same file (`GenerateIndexed`, `DataFilesCount`).
- **Label length.** Nothing is validated. A length of 0 or less gives the empty label (main.py:86, `DrawLabel`), and `min > max` raises at the first `randint` (main.py:76, `GenerateEmptyRange`).

## Model

| member | source | states |
|---|---|---|
| Alphabet.Enabled | main.py:47-54 | The appended characters are 10, 26, 26 and 14 characters for each enabled class, and none at all exactly when every toggle is off |
| Alphabet.EnabledMembers | main.py:47-54 | A character is in the appended alphabet if and only if it belongs to a class whose toggle is set |
| Alphabet.EnabledOrdered | main.py:47-54 | The appended alphabet never puts a character of a later class (digits < uppercase < lowercase < specials) before one of an earlier class |
| Alphabet.DigitsExact | main.py:48 | The digits literal holds exactly the characters '0' to '9' |
| Alphabet.UppercaseExact | main.py:50 | The uppercase literal holds exactly the characters 'A' to 'Z' |
| Alphabet.LowercaseExact | main.py:52 | The lowercase literal holds exactly the characters 'a' to 'z' |
| Alphabet.SpecialsApart | main.py:54 | No special character is a digit or a letter, so the four classes are pairwise disjoint |
| Backends.Lookup | main.py:55-62 | The lookup finds a backend if and only if the name is one of "captcha", "pillow" and "gvcode", and the backend found is registered under that name |
| Backends.LookupName | main.py:55-59 | Every backend is found under its own table key |
| Errors.RangeLen | main.py:78 | The number of iterations of `range(n)`: n for n >= 0 and 0 for a negative n; it also gives the label length of main.py:86 |
| Sampling.RandInt | main.py:76 | `randint` succeeds if and only if lo <= hi, yields a value in [lo, hi] and consumes one draw; otherwise it raises the empty-range error |
| Sampling.RandIntCovers | main.py:80 | Every value of a non-empty range is drawn by some stream |
| Sampling.Choice | main.py:86 | `choice` succeeds if and only if the alphabet is non-empty, yields one of its characters and consumes one draw; otherwise it raises the empty-sequence error |
| Sampling.DrawLabel | main.py:86 | The label draw succeeds if and only if the length is at most 0 or the alphabet is non-empty; the label has `range(length)`'s length, every character is from the alphabet, and one draw is consumed per character |
| Sampling.DrawLabelSpells | main.py:86 | A stream whose draws select the characters of w one by one draws exactly w, using one draw per character |
| Sampling.LabelReachable | main.py:86 | Every word over a non-empty alphabet, repeated characters included, is the label drawn by some stream |
| Sampling.Policy | main.py:75 | A range is used if and only if both bounds are given, with exactly those bounds; otherwise the fixed `captcha_length` is used |
| Sampling.LengthDraw | main.py:79-80 | A per-sample length fails if and only if a range with min > max is configured. Otherwise it is `captcha_length` itself for a fixed policy, or a value in [min, max] for a range; its label length is one the policy allows, and one draw is used exactly when a range is configured |
| Naming.Header | main.py:71-73 | The header row `file,label` that opens the index; `Prepared`, `ResetProject` and `GenerateIndexed` state that it is the first row |
| Naming.Filename | main.py:110 | The name `{label}_{sha1}.png` that is both the file's path and the row's first column (main.py:116); `ParseFilename`, `ParseFilenameRoundTrip` and `FilenameInjective` state its properties |
| Naming.ParseFilename | main.py:110 | A file name that parses yields a hex digest and a label that rebuild exactly that name |
| Naming.ParseFilenameRoundTrip | main.py:110 | A name `{label}_{sha1}.png` built from a 40-character hex digest parses back to that label and digest, whatever '_' the label contains |
| Naming.FilenameInjective | main.py:110 | Two names with hex digests are equal only when their labels and digests are equal |
| Generation.Digest | main.py:104-108 | The digest a file name carries: `sha1` of the image's in-memory PNG encoding. Whether it is 40 lower-case hex characters is the `HexHashes(env)` assumption, under which `SaveContentAddressed` uses it |
| Generation.Save | main.py:103-116 | `save_image` on the store: the image under its content-addressed name, plus a row with that name and the label; `SaveIndexed` and `SaveContentAddressed` state what it preserves, and `Canvas.CodeCanvas.SaveImage` states its effect |
| Generation.Sample | main.py:85-101 | One call of the selected backend: for `captcha` a label draw, then render and save, or the empty-alphabet error; for `gvcode` the library's image and label, then save; for `pillow` nothing. `SamplePreserves` states its properties |
| Generation.Iteration | main.py:78-81 | One pass of the loop: nothing after an exception; otherwise a fresh length per the policy, then one `Sample`. `IterationEffect` and `IterationPreserves` state its properties |
| Generation.Loop | main.py:78 | The first k passes of the loop, in order; `LoopInduction`, `LoopStable`, `LoopNext` and `LoopStops` state its properties |
| Generation.Prepared | main.py:64-76 | The state after the directory reset, the header and the length draw before the loop: an empty store, the header alone, and the empty-range error when the draw fails. `RunStuck` and `GenerateEmptyRange` state its properties |
| Generation.Generate | main.py:64-116 | A whole run once the backend is known: `Prepared`, then `range(num_captchas)` passes of `Iteration`. The `Generate*` lemmas below state its properties, and `Canvas.CodeCanvas.GenerateCaptcha` is proved equal to it |
| Generation.IterationEffect | main.py:78-81 | One pass keeps the earlier rows, adds exactly one row unless the backend is `pillow` or the pass raises, and uses one draw for a ranged length plus one per label character; it raises only for an empty range, or an empty alphabet with `captcha` |
| Generation.IterationPreserves | main.py:103-116 | One pass keeps the header, keeps the stored files equal to the files the data rows name, keeps every row's name content-addressed, and keeps every `captcha` label drawn from the alphabet at an allowed length |
| Generation.DataFilesCount | main.py:111 | An index with m data rows names at most m distinct files, and exactly m if and only if no two rows share a name |
| Generation.GenerateIndexed | main.py:64-116 | After a run, the index starts with the header and the image directory holds exactly the files the data rows name. There are at most as many files as data rows, and at most as many data rows as `range(num_captchas)` has elements (none for a negative count). There are exactly as many files as data rows if and only if the names are distinct |
| Generation.GenerateComplete | main.py:71-101 | A run that raises nothing leaves the header followed by exactly as many rows as `range(num_captchas)` has elements (none for a negative count), except with `pillow`, which always leaves the header alone and no files |
| Generation.GenerateErrors | main.py:75-86 | Once the backend is known, a run ends only in an empty-range error or, with `captcha`, an empty-alphabet error. Without those two causes it completes, and with a range min > max it fails. This concerns main.py's own calls; the foreign calls are taken to raise nothing |
| Generation.GenerateEmptyRange | main.py:64-76 | With min > max, the run raises at the draw before the loop, even for zero samples. The header exists, no image does, and no draw has been consumed |
| Generation.GenerateEmptyAlphabet | main.py:64-86 | With `captcha`, an empty alphabet, at least one sample and a positive length, the run raises the empty-alphabet error after the header exists and before any image |
| Generation.GenerateLabels | main.py:78-86 | With `captcha`, every label has a length the policy allows and consists of characters of the alphabet |
| Generation.GenerateContentAddressed | main.py:103-116 | Every data row names a stored file, that name is the row's label, '_', the SHA-1 hex digest of the stored image's PNG encoding, and ".png", and the label and digest parse back out of it |
| Generation.GenerateDraws | main.py:75-86 | A completed run uses one random draw for the pre-loop length and one per sample when a range is configured, plus one per label character with `captcha` |
| Canvas.Random.constructor | main.py:6 | Python's module-level random state: a fixed stream of raw draws, read from position 0 |
| Canvas.Random.RandInt | main.py:76 | The method draws a value in [lo, hi] whenever lo <= hi and updates the stream position as the `randint` specification does, or raises the empty-range error without moving it |
| Canvas.Random.Choices | main.py:86 | The label join succeeds if and only if the length is at most 0 or the alphabet is non-empty; it returns a label of that length over the alphabet and advances the stream as the label specification does |
| Canvas.CodeCanvas.constructor | main.py:22-28 | A new canvas has empty `characters`, only digits enabled, one sample requested, and no project directory |
| Canvas.CodeCanvas.SaveImage | main.py:103-116 | The image is stored under `{text}_{sha1}.png`, overwriting any earlier file of that name, and exactly that name with the label is appended to the index |
| Canvas.CodeCanvas.GenerateWithCaptcha | main.py:85-90 | The label drawn from `characters` is rendered (as the image for the sample's position in the run) and saved, or the empty-alphabet error is raised with the store unchanged |
| Canvas.CodeCanvas.GenerateWithGvcode | main.py:92-97 | The image and label that the library returns for this call are saved |
| Canvas.CodeCanvas.GenerateWithPillow | main.py:99-101 | The unimplemented backend changes nothing |
| Canvas.CodeCanvas.Dispatch | main.py:81 | The selected backend's method has exactly the effect of one sample of the specification; `pillow` changes nothing |
| Canvas.CodeCanvas.GenerateOne | main.py:78-81 | One loop pass has exactly the effect of one iteration of the specification: a fresh ranged length if configured, then one backend call |
| Canvas.CodeCanvas.ExtendCharacters | main.py:47-54 | `characters` becomes its old value followed by the enabled classes in order |
| Canvas.CodeCanvas.ResetProject | main.py:64-73 | The project directory exists, the image directory is empty, and the index holds only the header |
| Canvas.CodeCanvas.PreDraw | main.py:75-76 | The draw before the loop leaves the state the specification prepares, raising on an empty range |
| Canvas.CodeCanvas.Advance | main.py:78-81 | One more pass takes the state after i passes to the state after i + 1; a pass that raises leaves the final state of the whole loop |
| Canvas.CodeCanvas.Samples | main.py:78-81 | The loop leaves exactly the state after `range(num_captchas)` passes of the specification, stopping at the first exception |
| Canvas.CodeCanvas.GenerateAll | main.py:75-81 | After the header is written, the rest of the method leaves exactly the state of the specified run |
| Canvas.CodeCanvas.GenerateCaptcha | main.py:33-83 | The parameters default to `lib='captcha'`, `captcha_length=4` and no bounds, as in the source. The method always extends `characters`. With an unknown `lib` it raises, leaving the directory, the index and the random state as they were. Otherwise it creates the directory, and the final files, rows, random position and exception are those of the specified run |
| Canvas.TwoRuns | main.py:22-54 | Two runs on a fresh canvas leave the digits twice in `characters` |

## Left out

- Generation.Save: a file name is a plain name inside images/. A label containing '/' is possible only when `characters` is set by hand or `gvcode` returns one. It would make `os.path.join` (main.py:110) leave images/ or fail, and the model does not capture this. The claims of `GenerateIndexed` and `GenerateContentAddressed` about the image directory therefore hold for labels without '/'.
- Image rendering by `ImageCaptcha` and by the `gvcode` library is not modelled. These are foreign libraries, given only as functions of `Env`. No claim is made that `gvcode` labels stay within the alphabet. Nor is any claim made that two samples, with equal labels or not, get different images: that depends on `render` and `gvcode`, so whether a later sample overwrites an earlier file is left to them.
- PNG encoding and SHA-1 are uninterpreted functions. The model does not claim that the bytes written to disk hash to the digest in the name. The file is encoded a second time by `captcha_image.save(image_path)` (main.py:111), so that property depends on the library encoding deterministically.
- The distribution of `random.randint` and `random.choice` is not modelled. Only membership, range and reachability of every outcome are stated.
- Real file-system and CSV I/O are replaced by a map of files and a sequence of rows. Left out with them are `os.makedirs`, `shutil.rmtree`, `csv.writer`, newline handling and their I/O errors.
- The timestamped project directory name and paths (main.py:16-20) are not modelled. They depend on the clock.
- Creating `./captchas_output` in the constructor (main.py:30-31) is a file-system side effect with nothing to state.
- The `tqdm` progress bar and the completion `print` (main.py:78, main.py:83) are output only.
- The `__main__` driver (main.py:119-128) is a fixed example call, not part of the class.
- Interruption and partial-state behaviour (a crash between writing a file and its row) are not modelled, since the model is sequential.
- Foreign calls (render, png, sha1, gvcode) are taken to be total and not to touch the module-level random state. Their exceptions and any draws they make are not modelled. So `GenerateErrors` and `GenerateDraws`, and the random position that `GenerateCaptcha` states, concern main.py's own calls only.
- Dynamic typing: every parameter has a fixed type, so calls with arguments of other types, which Python would reject with a TypeError, are not modelled.
