/** The character classes of `CodeCanvas` and the alphabet built from the enabled ones. */
module Alphabet {

  const Digits: string := "0123456789"
  const UppercaseLetters: string := "ABCDEFGHIJKLMNOPQRSTUVWXYZ"
  const LowercaseLetters: string := "abcdefghijklmnopqrstuvwxyz"
  const Specials: string := "!@#$%^&*()-_=+"

  predicate IsDigit(c: char) { '0' <= c <= '9' }
  predicate IsUppercase(c: char) { 'A' <= c <= 'Z' }
  predicate IsLowercase(c: char) { 'a' <= c <= 'z' }
  predicate IsSpecial(c: char) { c in Specials }

  /** The position of a character's class in the fixed order digits, uppercase, lowercase, specials. */
  function ClassRank(c: char): nat
  {
    if IsDigit(c) then 0
    else if IsUppercase(c) then 1
    else if IsLowercase(c) then 2
    else 3
  }

  /** `s`, followed by the class `cls` when it is enabled. */
  function AppendIf(s: string, on: bool, cls: string): string
  {
    if on then s + cls else s
  }

  lemma AppendIfShift(prefix: string, s: string, on: bool, cls: string)
    ensures prefix + AppendIf(s, on, cls) == AppendIf(prefix + s, on, cls)
  {
    if on {
      assert prefix + (s + cls) == (prefix + s) + cls;
    }
  }

  /** The characters one call of `generate_captcha` appends to `characters`:
      the enabled classes, concatenated in the fixed class order. */
  function Enabled(digits: bool, upper: bool, lower: bool, specials: bool): (r: string)
    ensures |r| == (if digits then 10 else 0) + (if upper then 26 else 0)
                 + (if lower then 26 else 0) + (if specials then 14 else 0)
    ensures r == [] <==> !digits && !upper && !lower && !specials
  {
    AppendIf(AppendIf(AppendIf(AppendIf("", digits, Digits), upper, UppercaseLetters),
                      lower, LowercaseLetters), specials, Specials)
  }

  /** Each class consists of exactly the characters its predicate names, and no
      special is a letter or a digit, so the four classes are pairwise disjoint. */
  lemma DigitsExact()
    ensures forall c :: c in Digits <==> IsDigit(c)
  {
  }

  lemma UppercaseExact()
    ensures forall c :: c in UppercaseLetters <==> IsUppercase(c)
  {
  }

  lemma LowercaseExact()
    ensures forall c :: c in LowercaseLetters <==> IsLowercase(c)
  {
  }

  lemma SpecialsApart()
    ensures forall c :: c in Specials ==> !IsDigit(c) && !IsUppercase(c) && !IsLowercase(c)
  {
  }

  /** A character is in the alphabet exactly when it belongs to an enabled class. */
  lemma EnabledMembers(digits: bool, upper: bool, lower: bool, specials: bool, c: char)
    ensures c in Enabled(digits, upper, lower, specials) <==>
      (digits && IsDigit(c)) || (upper && IsUppercase(c)) ||
      (lower && IsLowercase(c)) || (specials && IsSpecial(c))
  {
    DigitsExact();
    UppercaseExact();
    LowercaseExact();
    SpecialsApart();
  }

  /** Every character of `s` has a class rank within `lo..hi`. */
  ghost predicate RanksWithin(s: string, lo: nat, hi: nat)
  {
    forall k :: 0 <= k < |s| ==> lo <= ClassRank(s[k]) <= hi
  }

  /** No character of `s` belongs to an earlier class than a character before it. */
  ghost predicate RankOrdered(s: string)
  {
    forall i, j :: 0 <= i <= j < |s| ==> ClassRank(s[i]) <= ClassRank(s[j])
  }

  lemma ConcatOrdered(a: string, b: string, lo: nat, mid: nat, hi: nat)
    requires lo <= mid <= hi
    requires RankOrdered(a) && RankOrdered(b)
    requires RanksWithin(a, lo, mid) && RanksWithin(b, mid, hi)
    ensures RankOrdered(a + b) && RanksWithin(a + b, lo, hi)
  {
    var r := a + b;
    forall i, j | 0 <= i <= j < |r| ensures ClassRank(r[i]) <= ClassRank(r[j]) {
      if j < |a| {
        assert r[i] == a[i] && r[j] == a[j];
      } else if i >= |a| {
        assert r[i] == b[i - |a|] && r[j] == b[j - |a|];
      } else {
        assert r[i] == a[i] && r[j] == b[j - |a|];
      }
    }
    forall k | 0 <= k < |r| ensures lo <= ClassRank(r[k]) <= hi {
      if k < |a| { assert r[k] == a[k]; } else { assert r[k] == b[k - |a|]; }
    }
  }

  lemma UniformOrdered(s: string, k: nat)
    requires RanksWithin(s, k, k)
    ensures RankOrdered(s)
  {
  }

  lemma ClassRanks()
    ensures RanksWithin(Digits, 0, 0) && RanksWithin(UppercaseLetters, 1, 1)
    ensures RanksWithin(LowercaseLetters, 2, 2) && RanksWithin(Specials, 3, 3)
  {
    DigitsExact();
    UppercaseExact();
    LowercaseExact();
    SpecialsApart();
    assert forall k :: 0 <= k < |Digits| ==> Digits[k] in Digits;
    assert forall k :: 0 <= k < |UppercaseLetters| ==> UppercaseLetters[k] in UppercaseLetters;
    assert forall k :: 0 <= k < |LowercaseLetters| ==> LowercaseLetters[k] in LowercaseLetters;
    assert forall k :: 0 <= k < |Specials| ==> Specials[k] in Specials;
  }

  lemma AppendIfOrdered(s: string, on: bool, cls: string, lo: nat, mid: nat, hi: nat)
    requires lo <= mid <= hi
    requires RankOrdered(s) && RanksWithin(s, lo, mid)
    requires RankOrdered(cls) && RanksWithin(cls, mid, hi)
    ensures RankOrdered(AppendIf(s, on, cls)) && RanksWithin(AppendIf(s, on, cls), lo, hi)
  {
    if on {
      ConcatOrdered(s, cls, lo, mid, hi);
    }
  }

  /** The classes appear in the fixed order: a character of an earlier class never
      follows one of a later class. */
  lemma EnabledOrdered(digits: bool, upper: bool, lower: bool, specials: bool)
    ensures RankOrdered(Enabled(digits, upper, lower, specials))
  {
    ClassRanks();
    UniformOrdered(Digits, 0);
    UniformOrdered(UppercaseLetters, 1);
    UniformOrdered(LowercaseLetters, 2);
    UniformOrdered(Specials, 3);
    var a := AppendIf("", digits, Digits);
    AppendIfOrdered("", digits, Digits, 0, 0, 0);
    var b := AppendIf(a, upper, UppercaseLetters);
    AppendIfOrdered(a, upper, UppercaseLetters, 0, 1, 1);
    var c := AppendIf(b, lower, LowercaseLetters);
    AppendIfOrdered(b, lower, LowercaseLetters, 0, 2, 2);
    AppendIfOrdered(c, specials, Specials, 0, 3, 3);
  }
}
