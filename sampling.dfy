/** The random draws of a generation run: `random.randint` for label lengths and
    `random.choice` for label characters, over an explicit stream of raw draws. */
module Sampling {
  import opened Errors

  /** The random source: the raw value of every draw, by its position in the stream. */
  type Stream = nat -> nat

  /** A value drawn from the stream, with the position of the next unused draw. */
  datatype Draw<+T> = Draw(value: T, next: nat)

  /** `random.randint(lo, hi)`: one draw reduced into the inclusive range; a
      ValueError, and no draw, when the range is empty. */
  function RandInt(stream: Stream, pos: nat, lo: int, hi: int): (r: Result<Draw<int>>)
    ensures r.Ok? <==> lo <= hi
    ensures r.Ok? ==> lo <= r.value.value <= hi && r.value.next == pos + 1
    ensures r.Err? ==> r.error == EmptyRange(lo, hi)
  {
    if lo <= hi then Ok(Draw(lo + stream(pos) % (hi - lo + 1), pos + 1))
    else Err(EmptyRange(lo, hi))
  }

  /** Every value of a non-empty range is what some stream draws. */
  lemma RandIntCovers(pos: nat, lo: int, hi: int, v: int)
    requires lo <= v <= hi
    ensures exists stream: Stream :: RandInt(stream, pos, lo, hi) == Ok(Draw(v, pos + 1))
  {
    var stream: Stream := k => v - lo;
    assert (v - lo) % (hi - lo + 1) == v - lo;
    assert RandInt(stream, pos, lo, hi) == Ok(Draw(v, pos + 1));
  }

  /** `random.choice(s)`: one draw picks a character of `s`; an IndexError, and no
      draw, when `s` is empty. */
  function Choice(stream: Stream, pos: nat, s: string): (r: Result<Draw<char>>)
    ensures r.Ok? <==> |s| > 0
    ensures r.Ok? ==> r.value.value in s && r.value.next == pos + 1
    ensures r.Err? ==> r.error == EmptyAlphabet
  {
    if |s| > 0 then Ok(Draw(s[stream(pos) % |s|], pos + 1)) else Err(EmptyAlphabet)
  }

  /** `''.join(random.choice(alphabet) for _ in range(n))`: a label of `n`
      independent picks, with replacement, taken from consecutive draws. */
  function DrawLabel(stream: Stream, pos: nat, alphabet: string, n: int): (r: Result<Draw<string>>)
    ensures r.Ok? <==> n <= 0 || |alphabet| > 0
    ensures r.Err? ==> r.error == EmptyAlphabet
    ensures r.Ok? ==> |r.value.value| == RangeLen(n) && r.value.next == pos + RangeLen(n)
    ensures r.Ok? ==> forall k :: 0 <= k < |r.value.value| ==> r.value.value[k] in alphabet
    decreases RangeLen(n)
  {
    if n <= 0 then Ok(Draw("", pos))
    else match Choice(stream, pos, alphabet)
      case Err(e) => Err(e)
      case Ok(c) =>
        match DrawLabel(stream, c.next, alphabet, n - 1)
        case Err(e) => Err(e)
        case Ok(rest) => Ok(Draw([c.value] + rest.value, rest.next))
  }

  /** A stream whose draws pick the characters of `w` one by one yields exactly `w`. */
  lemma {:induction false} DrawLabelSpells(stream: Stream, pos: nat, alphabet: string, w: string)
    requires |alphabet| > 0
    requires forall k :: 0 <= k < |w| ==> alphabet[stream(pos + k) % |alphabet|] == w[k]
    ensures DrawLabel(stream, pos, alphabet, |w|) == Ok(Draw(w, pos + |w|))
    decreases |w|
  {
    if |w| > 0 {
      forall k | 0 <= k < |w[1..]|
        ensures alphabet[stream(pos + 1 + k) % |alphabet|] == w[1..][k]
      {
        assert alphabet[stream(pos + (k + 1)) % |alphabet|] == w[k + 1];
      }
      DrawLabelSpells(stream, pos + 1, alphabet, w[1..]);
      assert [w[0]] + w[1..] == w;
    }
  }

  /** The position of a character in a string that contains it (0 when it is absent). */
  function IndexOf(s: string, c: char): (i: nat)
    ensures c in s ==> i < |s| && s[i] == c
  {
    if |s| == 0 || s[0] == c then 0 else 1 + IndexOf(s[1..], c)
  }

  lemma ModBelow(x: nat, n: nat)
    requires x < n
    ensures x % n == x
  {
  }

  /** The raw draw at position `k` of a stream that spells `w` from position `pos` on. */
  function SpellingDraw(pos: nat, alphabet: string, w: string, k: nat): nat
  {
    if pos <= k < pos + |w| then IndexOf(alphabet, w[k - pos]) else 0
  }

  /** Every label over the alphabet, repeated characters included, is drawn by some stream. */
  lemma LabelReachable(pos: nat, alphabet: string, w: string)
    requires forall k :: 0 <= k < |w| ==> w[k] in alphabet
    requires |alphabet| > 0
    ensures exists stream: Stream :: DrawLabel(stream, pos, alphabet, |w|) == Ok(Draw(w, pos + |w|))
  {
    var stream: Stream := k => SpellingDraw(pos, alphabet, w, k);
    forall k | 0 <= k < |w| ensures alphabet[stream(pos + k) % |alphabet|] == w[k] {
      var i := IndexOf(alphabet, w[k]);
      assert stream(pos + k) == i;
      ModBelow(i, |alphabet|);
    }
    DrawLabelSpells(stream, pos, alphabet, w);
  }

  /** How each sample's label length is chosen: `captcha_length` as given, or a
      fresh `random.randint(min, max)` per sample. */
  datatype LengthPolicy = Fixed(length: int) | Ranged(min: int, max: int)

  /** The range applies only when both bounds are given; otherwise the fixed length does. */
  function Policy(captchaLength: int, minLength: Option<int>, maxLength: Option<int>): (p: LengthPolicy)
    ensures p.Ranged? <==> minLength.Some? && maxLength.Some?
    ensures p.Ranged? ==> p.min == minLength.value && p.max == maxLength.value
    ensures p.Fixed? ==> p.length == captchaLength
  {
    if minLength.Some? && maxLength.Some? then Ranged(minLength.value, maxLength.value)
    else Fixed(captchaLength)
  }

  /** The label lengths a policy can produce (a negative length gives the empty label). */
  predicate LengthAllowed(p: LengthPolicy, n: nat)
  {
    match p
    case Fixed(m) => n == RangeLen(m)
    case Ranged(lo, hi) => RangeLen(lo) <= n <= RangeLen(hi)
  }

  /** The length for one sample: the fixed one without a draw, or one randint draw. */
  function LengthDraw(p: LengthPolicy, stream: Stream, pos: nat): (r: Result<Draw<int>>)
    ensures r.Err? <==> p.Ranged? && p.min > p.max
    ensures r.Err? ==> r.error == EmptyRange(p.min, p.max)
    ensures r.Ok? && p.Fixed? ==> r.value.value == p.length
    ensures r.Ok? && p.Ranged? ==> p.min <= r.value.value <= p.max
    ensures r.Ok? ==> LengthAllowed(p, RangeLen(r.value.value))
    ensures r.Ok? ==> r.value.next == pos + (if p.Ranged? then 1 else 0)
  {
    match p
    case Fixed(m) => Ok(Draw(m, pos))
    case Ranged(lo, hi) => RandInt(stream, pos, lo, hi)
  }
}
