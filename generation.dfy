/** The specification of one `generate_captcha` run once the backend is known:
    the directory reset, the header, the length pre-draw, and the per-sample loop,
    over an explicit image store and CSV index. */
module Generation {
  import opened Errors
  import opened Backends
  import opened Sampling
  import opened Naming

  newtype byte = x: int | 0 <= x < 256

  /** A rendered raster image; its pixels are opaque to this model. */
  datatype Image = Image(raster: seq<int>)

  /** The foreign collaborators of a run, as functions. `render` and `gvcode` are
      indexed by the position of the sample within the run, which stands for their
      own randomness (ImageCaptcha's colours and noise, gvcode's hidden state), so
      equal labels in one run may give different images; two runs over the same
      `Env` see the same results. */
  datatype Env = Env(
    render: (nat, string) -> Image,            // ImageCaptcha().generate_image(text)
    png: Image -> seq<byte>,                   // image.save(buffer, format="PNG")
    sha1: seq<byte> -> string,                 // hashlib.sha1(data).hexdigest()
    gvcode: (nat, int, string) -> (Image, string))  // gvcode.generate(length, chars)

  /** The digest the file name carries: SHA-1 of the image's in-memory PNG encoding. */
  function Digest(env: Env, image: Image): string
  {
    env.sha1(env.png(image))
  }

  /** The hash function behaves like `hexdigest()`: always 40 lower-case hex characters. */
  ghost predicate HexHashes(env: Env)
  {
    forall b :: IsHexDigest(env.sha1(b))
  }

  /** What a run has produced so far: the image directory (file name to image),
      the rows of dataframe.csv, the position in the random stream, and the
      exception that ended the run, if any. */
  datatype Run = Run(images: map<string, Image>, csv: seq<Row>, pos: nat, failure: Option<Error>)

  /** `save_image`: the image is stored under its content-addressed name and the
      same name, with the label, is appended to the index. */
  function Save(r: Run, env: Env, image: Image, text: string): Run
  {
    var name := Filename(text, Digest(env, image));
    r.(images := r.images[name := image], csv := r.csv + [Row(name, text)])
  }

  /** One call of the backend's `generate_with_*` method with the sample's length. */
  function Sample(r: Run, b: Backend, env: Env, alphabet: string, length: int, call: nat, stream: Stream): Run
  {
    match b
    case Captcha =>
      (match DrawLabel(stream, r.pos, alphabet, length)
       case Err(e) => r.(failure := Some(e))
       case Ok(d) => Save(r.(pos := d.next), env, env.render(call, d.value), d.value))
    case Gvcode =>
      var (image, text) := env.gvcode(call, length, alphabet);
      Save(r, env, image, text)
    case Pillow => r
  }

  /** Iteration `i` of the loop: a fresh length per the policy, then one sample.
      Nothing happens once the run has failed. */
  function Iteration(r: Run, b: Backend, env: Env, alphabet: string, p: LengthPolicy, stream: Stream, i: nat): Run
  {
    if r.failure.Some? then r
    else match LengthDraw(p, stream, r.pos)
      case Err(e) => r.(failure := Some(e))
      case Ok(d) => Sample(r.(pos := d.next), b, env, alphabet, d.value, i, stream)
  }

  /** One step of a loop: the state after iteration `i`, from the state before it. */
  type Step = (Run, nat) -> Run

  /** The loop body of `generate_captcha` for a fixed backend, alphabet and policy. */
  function StepOf(b: Backend, env: Env, alphabet: string, p: LengthPolicy, stream: Stream): Step
  {
    (r: Run, i: nat) => Iteration(r, b, env, alphabet, p, stream, i)
  }

  /** The first `k` iterations of a loop, from `r`. */
  function Loop(step: Step, r: Run, k: nat): Run
  {
    if k == 0 then r else step(Loop(step, r, k - 1), k - 1)
  }

  /** The state after the reset and the header, and after the length draw that
      precedes the loop when a range is configured (its value is never used). */
  function Prepared(p: LengthPolicy, stream: Stream, pos: nat): Run
  {
    match LengthDraw(p, stream, pos)
    case Err(e) => Run(map[], [Header], pos, Some(e))
    case Ok(d) => Run(map[], [Header], d.next, None)
  }

  /** A whole run with backend `b`, alphabet `alphabet` and `n` requested samples,
      starting at stream position `pos`. */
  function Generate(b: Backend, env: Env, alphabet: string, p: LengthPolicy, n: int, stream: Stream, pos: nat): Run
  {
    Loop(StepOf(b, env, alphabet, p, stream), Prepared(p, stream, pos), RangeLen(n))
  }

  // ---------------------------------------------------------------------------
  // Invariants of the store

  /** The names of the files the data rows of an index refer to. */
  function DataFiles(csv: seq<Row>): set<string>
  {
    set k | 1 <= k < |csv| :: csv[k].file
  }

  /** The index starts with the header and the image directory holds exactly the
      files the data rows name. */
  ghost predicate Indexed(r: Run)
  {
    && |r.csv| >= 1 && r.csv[0] == Header
    && (forall f :: f in r.images <==> f in DataFiles(r.csv))
  }

  /** Every data row names a stored file whose name is the row's label followed by
      the digest of the image stored under that name. */
  ghost predicate ContentAddressed(r: Run, env: Env)
  {
    forall k :: 1 <= k < |r.csv| ==>
      r.csv[k].file in r.images &&
      r.csv[k].file == Filename(r.csv[k].text, Digest(env, r.images[r.csv[k].file]))
  }

  ghost predicate Over(text: string, alphabet: string)
  {
    forall j :: 0 <= j < |text| ==> text[j] in alphabet
  }

  /** Every data row's label is drawn from the alphabet, with a length the policy allows. */
  ghost predicate LabelsDrawn(r: Run, alphabet: string, p: LengthPolicy)
  {
    forall k :: 1 <= k < |r.csv| ==> LengthAllowed(p, |r.csv[k].text|) && Over(r.csv[k].text, alphabet)
  }

  /** The total number of label characters in a sequence of rows. */
  function TextLength(rows: seq<Row>): nat
  {
    if |rows| == 0 then 0 else TextLength(rows[..|rows| - 1]) + |rows[|rows| - 1].text|
  }

  lemma SaveIndexed(r: Run, env: Env, image: Image, text: string)
    requires Indexed(r)
    ensures Indexed(Save(r, env, image, text))
  {
    var r' := Save(r, env, image, text);
    var row := r'.csv[|r.csv|];
    assert DataFiles(r'.csv) == DataFiles(r.csv) + {row.file} by {
      forall f | f in DataFiles(r'.csv) ensures f in DataFiles(r.csv) + {row.file} {
        var k :| 1 <= k < |r'.csv| && r'.csv[k].file == f;
        if k < |r.csv| { assert r'.csv[k] == r.csv[k]; }
      }
      forall f | f in DataFiles(r.csv) ensures f in DataFiles(r'.csv) {
        var k :| 1 <= k < |r.csv| && r.csv[k].file == f;
        assert r'.csv[k] == r.csv[k];
      }
    }
  }

  lemma SaveContentAddressed(r: Run, env: Env, image: Image, text: string)
    requires HexHashes(env) && ContentAddressed(r, env)
    ensures ContentAddressed(Save(r, env, image, text), env)
  {
    var r' := Save(r, env, image, text);
    var name := Filename(text, Digest(env, image));
    forall k | 1 <= k < |r'.csv|
      ensures r'.csv[k].file in r'.images
      ensures r'.csv[k].file == Filename(r'.csv[k].text, Digest(env, r'.images[r'.csv[k].file]))
    {
      if k < |r.csv| {
        assert r'.csv[k] == r.csv[k];
        var row := r.csv[k];
        if row.file == name {
          assert IsHexDigest(Digest(env, r.images[row.file])) && IsHexDigest(Digest(env, image));
          FilenameInjective(row.text, Digest(env, r.images[row.file]), text, Digest(env, image));
        }
      }
    }
  }

  /** A label sample preserves the store invariants, and its row's label is drawn
      from the alphabet when the backend is `captcha`. */
  lemma SamplePreserves(r: Run, b: Backend, env: Env, alphabet: string, p: LengthPolicy, length: int, call: nat, stream: Stream)
    requires Indexed(r)
    ensures Indexed(Sample(r, b, env, alphabet, length, call, stream))
    ensures HexHashes(env) && ContentAddressed(r, env) ==>
      ContentAddressed(Sample(r, b, env, alphabet, length, call, stream), env)
    ensures b == Captcha && LabelsDrawn(r, alphabet, p) && LengthAllowed(p, RangeLen(length)) ==>
      LabelsDrawn(Sample(r, b, env, alphabet, length, call, stream), alphabet, p)
  {
    match b {
      case Captcha =>
        match DrawLabel(stream, r.pos, alphabet, length) {
          case Err(e) =>
          case Ok(l) =>
            var r1 := r.(pos := l.next);
            var img := env.render(call, l.value);
            SaveIndexed(r1, env, img, l.value);
            if HexHashes(env) && ContentAddressed(r, env) {
              assert ContentAddressed(r1, env);
              SaveContentAddressed(r1, env, img, l.value);
            }
            if LabelsDrawn(r, alphabet, p) && LengthAllowed(p, RangeLen(length)) {
              var r' := Save(r1, env, img, l.value);
              forall k | 1 <= k < |r'.csv|
                ensures LengthAllowed(p, |r'.csv[k].text|) && Over(r'.csv[k].text, alphabet)
              {
                if k < |r.csv| { assert r'.csv[k] == r.csv[k]; }
              }
            }
        }
      case Gvcode =>
        var (image, text) := env.gvcode(call, length, alphabet);
        SaveIndexed(r, env, image, text);
        if HexHashes(env) && ContentAddressed(r, env) {
          SaveContentAddressed(r, env, image, text);
        }
      case Pillow =>
    }
  }

  /** One iteration preserves the store invariants. */
  lemma IterationPreserves(r: Run, b: Backend, env: Env, alphabet: string, p: LengthPolicy, stream: Stream, i: nat)
    requires Indexed(r)
    ensures Indexed(Iteration(r, b, env, alphabet, p, stream, i))
    ensures HexHashes(env) && ContentAddressed(r, env) ==>
      ContentAddressed(Iteration(r, b, env, alphabet, p, stream, i), env)
    ensures b == Captcha && LabelsDrawn(r, alphabet, p) ==>
      LabelsDrawn(Iteration(r, b, env, alphabet, p, stream, i), alphabet, p)
  {
    if r.failure.None? {
      match LengthDraw(p, stream, r.pos) {
        case Err(e) =>
        case Ok(d) =>
          var r1 := r.(pos := d.next);
          assert ContentAddressed(r, env) ==> ContentAddressed(r1, env);
          assert LabelsDrawn(r, alphabet, p) ==> LabelsDrawn(r1, alphabet, p);
          SamplePreserves(r1, b, env, alphabet, p, d.value, i, stream);
      }
    }
  }

  /** No two data rows of an index name the same file. */
  ghost predicate DistinctFiles(csv: seq<Row>)
  {
    forall j, k :: 1 <= j < k < |csv| ==> csv[j].file != csv[k].file
  }

  /** The files named by an index with one more row. */
  lemma DataFilesSnoc(csv: seq<Row>)
    requires |csv| > 1
    ensures DataFiles(csv) == DataFiles(csv[..|csv| - 1]) + {csv[|csv| - 1].file}
  {
    var front := csv[..|csv| - 1];
    forall f | f in DataFiles(csv) ensures f in DataFiles(front) + {csv[|csv| - 1].file} {
      var k :| 1 <= k < |csv| && csv[k].file == f;
      if k < |csv| - 1 { assert front[k] == csv[k]; }
    }
    forall f | f in DataFiles(front) ensures f in DataFiles(csv) {
      var k :| 1 <= k < |front| && front[k].file == f;
      assert csv[k] == front[k];
    }
  }

  /** An index with one more row has distinct names exactly when the shorter one has
      and the new row's name is not among them. */
  lemma DistinctSnoc(csv: seq<Row>)
    requires |csv| > 1
    ensures DistinctFiles(csv) <==>
      DistinctFiles(csv[..|csv| - 1]) && csv[|csv| - 1].file !in DataFiles(csv[..|csv| - 1])
  {
    var front := csv[..|csv| - 1];
    var last := csv[|csv| - 1].file;
    if DistinctFiles(csv) {
      forall j, k | 1 <= j < k < |front| ensures front[j].file != front[k].file {
        assert front[j] == csv[j] && front[k] == csv[k];
      }
      forall k | 1 <= k < |front| ensures front[k].file != last {
        assert front[k] == csv[k];
      }
    } else if DistinctFiles(front) {
      var j, k :| 1 <= j < k < |csv| && csv[j].file == csv[k].file;
      assert front[j] == csv[j];
      forall k' | j < k' < |csv| - 1 ensures csv[k'].file != csv[j].file {
        assert front[k'] == csv[k'];
      }
      assert front[j].file == last;
    }
  }

  /** An index with `m` data rows names at most `m` files, and exactly `m` when no
      two of its rows name the same file. */
  lemma {:induction false} DataFilesCount(csv: seq<Row>)
    requires |csv| >= 1
    ensures |DataFiles(csv)| <= |csv| - 1
    ensures |DataFiles(csv)| == |csv| - 1 <==> DistinctFiles(csv)
    decreases |csv|
  {
    if |csv| > 1 {
      DataFilesCount(csv[..|csv| - 1]);
      DataFilesSnoc(csv);
      DistinctSnoc(csv);
    } else {
      assert DataFiles(csv) == {};
    }
  }

  lemma TextLengthAppend(rows: seq<Row>, row: Row)
    ensures TextLength(rows + [row]) == TextLength(rows) + |row.text|
  {
    assert (rows + [row])[..|rows|] == rows;
  }

  /** What one iteration, from a state that has not failed, does to the index, the
      stream position and the outcome. */
  ghost predicate Effect(r: Run, b: Backend, alphabet: string, p: LengthPolicy, r': Run)
  {
    && |r.csv| <= |r'.csv| && r'.csv[..|r.csv|] == r.csv
    && (r'.failure.Some? || b == Pillow ==> r'.csv == r.csv && r'.images == r.images)
    && (r'.failure.None? ==>
          |r'.csv| == |r.csv| + (if b == Pillow then 0 else 1) &&
          r'.pos == r.pos + (if p.Ranged? then 1 else 0) + (if b == Captcha then |r'.csv[|r.csv|].text| else 0))
    && (r'.failure.Some? ==>
          (p.Ranged? && p.min > p.max && r'.failure == Some(EmptyRange(p.min, p.max))) ||
          (b == Captcha && alphabet == [] && r'.failure == Some(EmptyAlphabet)))
  }

  lemma IterationEffect(r: Run, b: Backend, env: Env, alphabet: string, p: LengthPolicy, stream: Stream, i: nat)
    requires r.failure.None?
    ensures Effect(r, b, alphabet, p, Iteration(r, b, env, alphabet, p, stream, i))
  {
  }

  /** Induction over a loop: a property of (iteration count, state) that holds at
      the start and is carried by every step holds after any number of steps. */
  lemma {:induction false} LoopInduction(step: Step, inv: (nat, Run) -> bool, r: Run, k: nat)
    requires inv(0, r)
    requires forall i: nat, s: Run :: inv(i, s) ==> inv(i + 1, step(s, i))
    ensures inv(k, Loop(step, r, k))
  {
    if k > 0 {
      LoopInduction(step, inv, r, k - 1);
    }
  }

  /** A state that every step leaves alone stays put for the rest of the loop. */
  lemma {:induction false} LoopStable(step: Step, r: Run, k: nat, m: nat)
    requires k <= m
    requires forall s: Run, i: nat :: s.failure.Some? ==> step(s, i) == s
    requires Loop(step, r, k).failure.Some?
    ensures Loop(step, r, m) == Loop(step, r, k)
    decreases m
  {
    if m > k {
      LoopStable(step, r, k, m - 1);
    }
  }

  lemma StepStable(b: Backend, env: Env, alphabet: string, p: LengthPolicy, stream: Stream)
    ensures forall s: Run, i: nat :: s.failure.Some? ==> StepOf(b, env, alphabet, p, stream)(s, i) == s
  {
  }

  /** The loop of a run, one iteration further. */
  lemma LoopNext(b: Backend, env: Env, alphabet: string, p: LengthPolicy, stream: Stream, r: Run, k: nat)
    ensures Loop(StepOf(b, env, alphabet, p, stream), r, k + 1)
         == Iteration(Loop(StepOf(b, env, alphabet, p, stream), r, k), b, env, alphabet, p, stream, k)
  {
  }

  /** Once an iteration of a run raises, the remaining iterations change nothing. */
  lemma LoopStops(b: Backend, env: Env, alphabet: string, p: LengthPolicy, stream: Stream, r: Run, k: nat, m: nat)
    requires k <= m
    requires Loop(StepOf(b, env, alphabet, p, stream), r, k).failure.Some?
    ensures Loop(StepOf(b, env, alphabet, p, stream), r, m) == Loop(StepOf(b, env, alphabet, p, stream), r, k)
  {
    StepStable(b, env, alphabet, p, stream);
    LoopStable(StepOf(b, env, alphabet, p, stream), r, k, m);
  }

  /** Rows are only appended, one per sample, and every draw is accounted for: one
      per length draw and, for `captcha`, one per label character. */
  ghost predicate Accounted(r0: Run, b: Backend, alphabet: string, p: LengthPolicy, k: nat, r: Run)
  {
    && |r0.csv| <= |r.csv| <= |r0.csv| + k && r.csv[..|r0.csv|] == r0.csv
    && (b == Pillow ==> r.csv == r0.csv && r.images == r0.images)
    && (r.failure.None? ==>
          |r.csv| == |r0.csv| + (if b == Pillow then 0 else k) &&
          r.pos == r0.pos + (if p.Ranged? then k else 0) + (if b == Captcha then TextLength(r.csv[|r0.csv|..]) else 0))
    && (r.failure.Some? ==>
          (p.Ranged? && p.min > p.max && r.failure == Some(EmptyRange(p.min, p.max))) ||
          (b == Captcha && alphabet == [] && r.failure == Some(EmptyAlphabet)))
  }

  /** An effect carries the accounting one iteration further. */
  lemma EffectAccounted(r0: Run, b: Backend, alphabet: string, p: LengthPolicy, i: nat, s: Run, s': Run)
    requires Accounted(r0, b, alphabet, p, i, s) && s.failure.None?
    requires Effect(s, b, alphabet, p, s')
    ensures Accounted(r0, b, alphabet, p, i + 1, s')
  {
    if s'.failure.None? && b != Pillow {
      assert s'.csv == s.csv + [s'.csv[|s.csv|]];
      assert s'.csv[|r0.csv|..] == s.csv[|r0.csv|..] + [s'.csv[|s.csv|]];
      TextLengthAppend(s.csv[|r0.csv|..], s'.csv[|s.csv|]);
    }
  }

  lemma StepAccounted(r0: Run, b: Backend, env: Env, alphabet: string, p: LengthPolicy, stream: Stream, i: nat, s: Run)
    requires Accounted(r0, b, alphabet, p, i, s)
    ensures Accounted(r0, b, alphabet, p, i + 1, Iteration(s, b, env, alphabet, p, stream, i))
  {
    if s.failure.None? {
      IterationEffect(s, b, env, alphabet, p, stream, i);
      EffectAccounted(r0, b, alphabet, p, i, s, Iteration(s, b, env, alphabet, p, stream, i));
    }
  }

  /** The accounting of a whole run from the prepared state. */
  lemma RunAccounted(b: Backend, env: Env, alphabet: string, p: LengthPolicy, n: int, stream: Stream, pos: nat)
    ensures var r0 := Prepared(p, stream, pos);
      r0.failure.None? ==> Accounted(r0, b, alphabet, p, RangeLen(n), Generate(b, env, alphabet, p, n, stream, pos))
  {
    var r0 := Prepared(p, stream, pos);
    if r0.failure.None? {
      var step := StepOf(b, env, alphabet, p, stream);
      var inv := (i: nat, s: Run) => Accounted(r0, b, alphabet, p, i, s);
      forall i: nat, s: Run | inv(i, s) ensures inv(i + 1, step(s, i)) {
        StepAccounted(r0, b, env, alphabet, p, stream, i, s);
      }
      LoopInduction(step, inv, r0, RangeLen(n));
    }
  }

  /** A run whose length pre-draw fails is the prepared state, unchanged. */
  lemma RunStuck(b: Backend, env: Env, alphabet: string, p: LengthPolicy, n: int, stream: Stream, pos: nat)
    requires Prepared(p, stream, pos).failure.Some?
    ensures Generate(b, env, alphabet, p, n, stream, pos) == Prepared(p, stream, pos)
  {
    StepStable(b, env, alphabet, p, stream);
    LoopStable(StepOf(b, env, alphabet, p, stream), Prepared(p, stream, pos), 0, RangeLen(n));
  }

  /** The store invariants of a whole run. */
  lemma RunPreserves(b: Backend, env: Env, alphabet: string, p: LengthPolicy, n: int, stream: Stream, pos: nat)
    ensures var r := Generate(b, env, alphabet, p, n, stream, pos);
      && Indexed(r)
      && (HexHashes(env) ==> ContentAddressed(r, env))
      && (b == Captcha ==> LabelsDrawn(r, alphabet, p))
  {
    var r0 := Prepared(p, stream, pos);
    assert DataFiles(r0.csv) == {};
    var step := StepOf(b, env, alphabet, p, stream);
    var inv := (i: nat, s: Run) =>
      && Indexed(s)
      && (HexHashes(env) ==> ContentAddressed(s, env))
      && (b == Captcha ==> LabelsDrawn(s, alphabet, p));
    forall i: nat, s: Run | inv(i, s) ensures inv(i + 1, step(s, i)) {
      IterationPreserves(s, b, env, alphabet, p, stream, i);
    }
    LoopInduction(step, inv, r0, RangeLen(n));
  }

  // ---------------------------------------------------------------------------
  // Properties of a whole run

  /** The index starts with the header, the image directory holds exactly the files
      the data rows name, and there are no more files than data rows, nor more data
      rows than requested samples. */
  lemma GenerateIndexed(b: Backend, env: Env, alphabet: string, p: LengthPolicy, n: int, stream: Stream, pos: nat)
    ensures var r := Generate(b, env, alphabet, p, n, stream, pos);
      && |r.csv| >= 1 && r.csv[0] == Header
      && r.images.Keys == DataFiles(r.csv)
      && |r.images| <= |r.csv| - 1 <= RangeLen(n)
      && (|r.images| == |r.csv| - 1 <==> DistinctFiles(r.csv))
  {
    var r := Generate(b, env, alphabet, p, n, stream, pos);
    RunPreserves(b, env, alphabet, p, n, stream, pos);
    assert r.images.Keys == DataFiles(r.csv);
    DataFilesCount(r.csv);
    assert |r.images| == |r.images.Keys|;
    if Prepared(p, stream, pos).failure.None? {
      RunAccounted(b, env, alphabet, p, n, stream, pos);
    } else {
      RunStuck(b, env, alphabet, p, n, stream, pos);
    }
  }

  /** A run that raises nothing leaves the header and exactly one row per requested
      sample, in order; with `pillow` it leaves the header alone, whatever happens. */
  lemma GenerateComplete(b: Backend, env: Env, alphabet: string, p: LengthPolicy, n: int, stream: Stream, pos: nat)
    ensures var r := Generate(b, env, alphabet, p, n, stream, pos);
      && (r.failure.None? ==> |r.csv| == 1 + (if b == Pillow then 0 else RangeLen(n)))
      && (b == Pillow ==> r.csv == [Header] && r.images == map[])
  {
    if Prepared(p, stream, pos).failure.None? {
      RunAccounted(b, env, alphabet, p, n, stream, pos);
    } else {
      RunStuck(b, env, alphabet, p, n, stream, pos);
    }
  }

  /** The only exceptions a run can end with, once the backend is known, are an empty
      length range and, for `captcha`, an empty alphabet; without those it completes. */
  lemma GenerateErrors(b: Backend, env: Env, alphabet: string, p: LengthPolicy, n: int, stream: Stream, pos: nat)
    ensures var r := Generate(b, env, alphabet, p, n, stream, pos);
      && (r.failure.Some? ==>
            (p.Ranged? && p.min > p.max && r.failure == Some(EmptyRange(p.min, p.max))) ||
            (b == Captcha && alphabet == [] && r.failure == Some(EmptyAlphabet)))
      && ((b != Captcha || alphabet != []) ==> (r.failure.None? <==> !(p.Ranged? && p.min > p.max)))
  {
    if Prepared(p, stream, pos).failure.None? {
      RunAccounted(b, env, alphabet, p, n, stream, pos);
    } else {
      RunStuck(b, env, alphabet, p, n, stream, pos);
    }
  }

  /** An empty range raises at the draw before the loop, even for zero samples, after
      the directories and the header exist and before any image is written. */
  lemma GenerateEmptyRange(b: Backend, env: Env, alphabet: string, n: int, stream: Stream, pos: nat, lo: int, hi: int)
    requires lo > hi
    ensures Generate(b, env, alphabet, Ranged(lo, hi), n, stream, pos)
         == Run(map[], [Header], pos, Some(EmptyRange(lo, hi)))
  {
    RunStuck(b, env, alphabet, Ranged(lo, hi), n, stream, pos);
  }

  /** With `captcha`, an empty alphabet and a positive length, the first label draw
      raises, after the directories and the header exist and before any image. */
  lemma GenerateEmptyAlphabet(env: Env, p: LengthPolicy, n: int, stream: Stream, pos: nat)
    requires n > 0
    requires (p.Fixed? && p.length > 0) || (p.Ranged? && 0 < p.min <= p.max)
    ensures var r := Generate(Captcha, env, "", p, n, stream, pos);
      r.failure == Some(EmptyAlphabet) && r.csv == [Header] && r.images == map[]
  {
    var r0 := Prepared(p, stream, pos);
    var step := StepOf(Captcha, env, "", p, stream);
    assert Loop(step, r0, 1) == Iteration(r0, Captcha, env, "", p, stream, 0);
    StepStable(Captcha, env, "", p, stream);
    LoopStable(step, r0, 1, RangeLen(n));
  }

  /** With `captcha`, every label has a length the policy allows and consists of
      characters of the alphabet. */
  lemma GenerateLabels(env: Env, alphabet: string, p: LengthPolicy, n: int, stream: Stream, pos: nat)
    ensures var r := Generate(Captcha, env, alphabet, p, n, stream, pos);
      forall k :: 1 <= k < |r.csv| ==>
        LengthAllowed(p, |r.csv[k].text|) && forall j :: 0 <= j < |r.csv[k].text| ==> r.csv[k].text[j] in alphabet
  {
    RunPreserves(Captcha, env, alphabet, p, n, stream, pos);
  }

  /** Every data row names a stored file, and that name is the row's label, '_', the
      digest of the stored image and ".png"; so the label and digest parse back out. */
  lemma GenerateContentAddressed(b: Backend, env: Env, alphabet: string, p: LengthPolicy, n: int, stream: Stream, pos: nat)
    requires HexHashes(env)
    ensures var r := Generate(b, env, alphabet, p, n, stream, pos);
      forall k :: 1 <= k < |r.csv| ==>
        && r.csv[k].file in r.images
        && r.csv[k].file == Filename(r.csv[k].text, Digest(env, r.images[r.csv[k].file]))
        && ParseFilename(r.csv[k].file) == Some((r.csv[k].text, Digest(env, r.images[r.csv[k].file])))
  {
    var r := Generate(b, env, alphabet, p, n, stream, pos);
    RunPreserves(b, env, alphabet, p, n, stream, pos);
    forall k | 1 <= k < |r.csv|
      ensures ParseFilename(r.csv[k].file) == Some((r.csv[k].text, Digest(env, r.images[r.csv[k].file])))
    {
      ParseFilenameRoundTrip(r.csv[k].text, Digest(env, r.images[r.csv[k].file]));
    }
  }

  /** A run that completes uses one draw per length draw (the one before the loop
      and one per sample) when a range is configured, and, with `captcha`, one per
      label character: every sample's length is drawn anew. */
  lemma GenerateDraws(b: Backend, env: Env, alphabet: string, p: LengthPolicy, n: int, stream: Stream, pos: nat)
    ensures var r := Generate(b, env, alphabet, p, n, stream, pos);
      r.failure.None? ==>
        r.pos == pos + (if p.Ranged? then 1 + RangeLen(n) else 0)
                     + (if b == Captcha then TextLength(r.csv[1..]) else 0)
  {
    if Prepared(p, stream, pos).failure.None? {
      RunAccounted(b, env, alphabet, p, n, stream, pos);
    } else {
      RunStuck(b, env, alphabet, p, n, stream, pos);
    }
  }
}
