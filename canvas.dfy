/** The `CodeCanvas` object: its configuration fields, the project directory it
    owns, and the methods of a generation run, each proved against the
    specification in module Generation. */
module Canvas {
  import opened Errors
  import opened Alphabet
  import opened Backends
  import opened Sampling
  import opened Naming
  import opened Generation

  /** The module-level state of Python's `random`: a fixed stream of raw draws
      and the position of the next unused one. */
  class Random {
    const stream: Stream
    var pos: nat

    constructor (stream: Stream)
      ensures this.stream == stream && pos == 0
    {
      this.stream := stream;
      pos := 0;
    }

    /** `random.randint(lo, hi)`. */
    method RandInt(lo: int, hi: int) returns (r: Result<int>)
      modifies this
      ensures lo <= hi ==> r.Ok? && lo <= r.value <= hi
      ensures Sampling.RandInt(stream, old(pos), lo, hi).Ok? ==>
        r == Ok(Sampling.RandInt(stream, old(pos), lo, hi).value.value) &&
        pos == Sampling.RandInt(stream, old(pos), lo, hi).value.next
      ensures Sampling.RandInt(stream, old(pos), lo, hi).Err? ==>
        r == Err(EmptyRange(lo, hi)) && pos == old(pos)
    {
      var d := Sampling.RandInt(stream, pos, lo, hi);
      if d.Err? {
        return Err(d.error);
      }
      pos := d.value.next;
      return Ok(d.value.value);
    }

    /** `''.join(random.choice(alphabet) for _ in range(n))`. */
    method Choices(alphabet: string, n: int) returns (r: Result<string>)
      modifies this
      ensures r.Ok? <==> n <= 0 || |alphabet| > 0
      ensures r.Ok? ==> |r.value| == RangeLen(n) && forall k :: 0 <= k < |r.value| ==> r.value[k] in alphabet
      ensures DrawLabel(stream, old(pos), alphabet, n).Ok? ==>
        r == Ok(DrawLabel(stream, old(pos), alphabet, n).value.value) &&
        pos == DrawLabel(stream, old(pos), alphabet, n).value.next
      ensures DrawLabel(stream, old(pos), alphabet, n).Err? ==> r == Err(EmptyAlphabet) && pos == old(pos)
    {
      var d := DrawLabel(stream, pos, alphabet, n);
      if d.Err? {
        return Err(d.error);
      }
      pos := d.value.next;
      return Ok(d.value.value);
    }
  }

  class CodeCanvas {
    // Configuration, set by the constructor and then by the caller.
    var characters: string
    var includeDigits: bool
    var includeUppercaseLetters: bool
    var includeLowercaseLetters: bool
    var includeSpecials: bool
    var numCaptchas: int

    // The project directory: whether it exists, the files of its images/
    // directory, and the rows of its dataframe.csv.
    var projectExists: bool
    var images: map<string, Image>
    var csv: seq<Row>

    /** A fresh canvas: only digits enabled, one sample, no project directory yet. */
    constructor ()
      ensures characters == "" && numCaptchas == 1
      ensures includeDigits && !includeUppercaseLetters && !includeLowercaseLetters && !includeSpecials
      ensures !projectExists && images == map[] && csv == []
    {
      characters := "";
      includeDigits := true;
      includeUppercaseLetters := false;
      includeLowercaseLetters := false;
      includeSpecials := false;
      numCaptchas := 1;
      projectExists := false;
      images := map[];
      csv := [];
    }

    /** `save_image`: stores the image under `{text}_{sha1}.png` and appends that same
        name, with the label, to the index. */
    method SaveImage(image: Image, text: string, env: Env)
      modifies this`images, this`csv
      ensures Run(images, csv, 0, None) == Save(Run(old(images), old(csv), 0, None), env, image, text)
      ensures csv == old(csv) + [Row(Filename(text, Digest(env, image)), text)]
      ensures images == old(images)[Filename(text, Digest(env, image)) := image]
    {
      var sha1 := Digest(env, image);
      var name := Filename(text, sha1);
      images := images[name := image];
      csv := csv + [Row(name, text)];
    }

    /** `generate_with_captcha`: a label drawn from `characters`, rendered and saved.
        The `call` index, the sample's position within the run, selects the image. */
    method GenerateWithCaptcha(length: int, env: Env, rng: Random, call: nat) returns (raised: Option<Error>)
      modifies this`images, this`csv, rng
      ensures Run(images, csv, rng.pos, raised)
           == Sample(Run(old(images), old(csv), old(rng.pos), None), Captcha, env, characters, length, call, rng.stream)
    {
      var text := rng.Choices(characters, length);
      if text.Err? {
        return Some(text.error);
      }
      var image := env.render(call, text.value);
      SaveImage(image, text.value, env);
      return None;
    }

    /** `generate_with_gvcode`: the library's own image and label, saved. The `call`
        index, the sample's position within the run, selects the library's result. */
    method GenerateWithGvcode(length: int, env: Env, call: nat)
      modifies this`images, this`csv
      ensures var (image, text) := env.gvcode(call, length, characters);
        && csv == old(csv) + [Row(Filename(text, Digest(env, image)), text)]
        && images == old(images)[Filename(text, Digest(env, image)) := image]
    {
      var (image, text) := env.gvcode(call, length, characters);
      SaveImage(image, text, env);
    }

    /** `generate_with_pillow`: an unimplemented backend that does nothing. */
    method GenerateWithPillow(length: int)
      ensures unchanged(this)
    {
    }

    /** `func(captcha_length=length)`: the call of the backend the lookup selected. */
    method Dispatch(b: Backend, length: int, env: Env, rng: Random, call: nat) returns (raised: Option<Error>)
      modifies this`images, this`csv, rng
      ensures Run(images, csv, rng.pos, raised)
           == Sample(Run(old(images), old(csv), old(rng.pos), None), b, env, characters, length, call, rng.stream)
    {
      match b {
        case Captcha =>
          raised := GenerateWithCaptcha(length, env, rng, call);
        case Gvcode =>
          GenerateWithGvcode(length, env, call);
          raised := None;
        case Pillow =>
          GenerateWithPillow(length);
          raised := None;
      }
    }

    /** One pass of the loop: a fresh length when a range is configured, then the backend call. */
    method GenerateOne(b: Backend, policy: LengthPolicy, env: Env, rng: Random, i: nat) returns (raised: Option<Error>)
      modifies this`images, this`csv, rng
      ensures Run(images, csv, rng.pos, raised)
           == Iteration(Run(old(images), old(csv), old(rng.pos), None), b, env, characters, policy, rng.stream, i)
    {
      var length;
      if policy.Ranged? {
        var drawn := rng.RandInt(policy.min, policy.max);
        if drawn.Err? {
          return Some(drawn.error);
        }
        length := drawn.value;
      } else {
        length := policy.length;
      }
      raised := Dispatch(b, length, env, rng, i);
    }

    /** The character-class appends at the start of `generate_captcha`. */
    method ExtendCharacters()
      modifies this`characters
      ensures characters == old(characters) + Enabled(includeDigits, includeUppercaseLetters,
                                                         includeLowercaseLetters, includeSpecials)
    {
      if includeDigits {
        characters := characters + Digits;
      }
      AppendIfShift(old(characters), "", includeDigits, Digits);
      ghost var added := AppendIf("", includeDigits, Digits);
      assert characters == old(characters) + added;
      if includeUppercaseLetters {
        characters := characters + UppercaseLetters;
      }
      AppendIfShift(old(characters), added, includeUppercaseLetters, UppercaseLetters);
      added := AppendIf(added, includeUppercaseLetters, UppercaseLetters);
      assert characters == old(characters) + added;
      if includeLowercaseLetters {
        characters := characters + LowercaseLetters;
      }
      AppendIfShift(old(characters), added, includeLowercaseLetters, LowercaseLetters);
      added := AppendIf(added, includeLowercaseLetters, LowercaseLetters);
      assert characters == old(characters) + added;
      if includeSpecials {
        characters := characters + Specials;
      }
      AppendIfShift(old(characters), added, includeSpecials, Specials);
      added := AppendIf(added, includeSpecials, Specials);
      assert characters == old(characters) + added;
    }

    /** `shutil.rmtree` and `os.makedirs` of the project and image directories, then
        the CSV header: whatever a previous run left is gone. */
    method ResetProject()
      modifies this`projectExists, this`images, this`csv
      ensures projectExists && images == map[] && csv == [Header]
    {
      projectExists := true;
      images := map[];
      csv := [Header];
    }

    /** The length draw `generate_captcha` makes before its loop when a range is
        configured; its value is not used. */
    method PreDraw(policy: LengthPolicy, rng: Random) returns (raised: Option<Error>)
      requires images == map[] && csv == [Header]
      modifies rng
      ensures Run(images, csv, rng.pos, raised) == Prepared(policy, rng.stream, old(rng.pos))
    {
      raised := None;
      if policy.Ranged? {
        var drawn := rng.RandInt(policy.min, policy.max);
        if drawn.Err? {
          raised := Some(drawn.error);
        }
      }
    }

    /** One more pass of the sampling loop, from the state after the first `i`. */
    method Advance(b: Backend, policy: LengthPolicy, env: Env, rng: Random, ghost start: Run, i: nat, n: nat)
      returns (raised: Option<Error>)
      requires i < n
      requires Run(images, csv, rng.pos, None) == Loop(StepOf(b, env, characters, policy, rng.stream), start, i)
      modifies this`images, this`csv, rng
      ensures Run(images, csv, rng.pos, raised) == Loop(StepOf(b, env, characters, policy, rng.stream), start, i + 1)
      ensures raised.Some? ==> Run(images, csv, rng.pos, raised) == Loop(StepOf(b, env, characters, policy, rng.stream), start, n)
    {
      ghost var before := Run(images, csv, rng.pos, None);
      raised := GenerateOne(b, policy, env, rng, i);
      LoopNext(b, env, characters, policy, rng.stream, start, i);
      assert Run(images, csv, rng.pos, raised) == Iteration(before, b, env, characters, policy, rng.stream, i);
      if raised.Some? {
        LoopStops(b, env, characters, policy, rng.stream, start, i + 1, n);
      }
    }

    /** The sampling loop of `generate_captcha`: `num_captchas` passes, stopping at the
        first exception. */
    method Samples(b: Backend, policy: LengthPolicy, env: Env, rng: Random, ghost start: Run)
      returns (raised: Option<Error>)
      requires start == Run(images, csv, rng.pos, None)
      modifies this`images, this`csv, rng
      ensures Run(images, csv, rng.pos, raised)
           == Loop(StepOf(b, env, characters, policy, rng.stream), start, RangeLen(numCaptchas))
    {
      ghost var step := StepOf(b, env, characters, policy, rng.stream);
      for i := 0 to RangeLen(numCaptchas)
        invariant Run(images, csv, rng.pos, None) == Loop(step, start, i)
      {
        raised := Advance(b, policy, env, rng, start, i, RangeLen(numCaptchas));
        if raised.Some? {
          return;
        }
      }
      raised := None;
    }

    /** The rest of `generate_captcha` once the header exists. */
    method GenerateAll(b: Backend, policy: LengthPolicy, env: Env, rng: Random) returns (raised: Option<Error>)
      requires images == map[] && csv == [Header]
      modifies this`images, this`csv, rng
      ensures Run(images, csv, rng.pos, raised)
           == Generate(b, env, characters, policy, numCaptchas, rng.stream, old(rng.pos))
    {
      raised := PreDraw(policy, rng);
      if raised.Some? {
        RunStuck(b, env, characters, policy, numCaptchas, rng.stream, old(rng.pos));
        return;
      }
      raised := Samples(b, policy, env, rng, Run(images, csv, rng.pos, None));
    }

    /** `generate_captcha`: extends the alphabet, looks up the backend, resets the
        project directory, writes the header, and runs the sampling loop. */
    method GenerateCaptcha(env: Env, rng: Random, lib: string := "captcha", captchaLength: int := 4,
                           minCaptchaLength: Option<int> := None, maxCaptchaLength: Option<int> := None)
      returns (raised: Option<Error>)
      modifies this, rng
      ensures characters == old(characters) + Enabled(includeDigits, includeUppercaseLetters,
                                                         includeLowercaseLetters, includeSpecials)
      ensures includeDigits == old(includeDigits) && includeUppercaseLetters == old(includeUppercaseLetters)
      ensures includeLowercaseLetters == old(includeLowercaseLetters) && includeSpecials == old(includeSpecials)
      ensures numCaptchas == old(numCaptchas)
      ensures Lookup(lib).None? ==>
        && raised == Some(UnsupportedLibrary(lib))
        && projectExists == old(projectExists) && images == old(images) && csv == old(csv)
        && rng.pos == old(rng.pos)
      ensures Lookup(lib).Some? ==>
        && projectExists
        && Run(images, csv, rng.pos, raised)
           == Generate(Lookup(lib).value, env, characters,
                       Policy(captchaLength, minCaptchaLength, maxCaptchaLength),
                       numCaptchas, rng.stream, old(rng.pos))
    {
      ExtendCharacters();
      var backend := Lookup(lib);
      if backend.None? {
        return Some(UnsupportedLibrary(lib));
      }
      ResetProject();
      var policy := Policy(captchaLength, minCaptchaLength, maxCaptchaLength);
      raised := GenerateAll(backend.value, policy, env, rng);
    }
  }

  /** `characters` is never reset: a second run appends the enabled classes again. */
  method TwoRuns(env: Env, rng: Random) returns (canvas: CodeCanvas)
    modifies rng
    ensures canvas.characters == Digits + Digits
  {
    canvas := new CodeCanvas();
    var first := canvas.GenerateCaptcha(env, rng);
    var second := canvas.GenerateCaptcha(env, rng);
  }
}
