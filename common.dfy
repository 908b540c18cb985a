/** Small pieces of JavaScript behaviour the bot relies on, written out once:
    optional values, `Array.prototype.slice`, `Math.ceil(n / k)`, the decimal
    rendering of whole numbers in template strings, `filter` and string joining. */
module Common {

  datatype Option<T> = None | Some(value: T)

  function Min(a: int, b: int): int { if a <= b then a else b }

  function Max(a: int, b: int): int { if a >= b then a else b }

  /** `Math.ceil(n / k)` for a whole n and a positive whole k. */
  function CeilDiv(n: nat, k: nat): (r: nat)
    requires k > 0
    ensures r * k >= n
    ensures r > 0 ==> (r - 1) * k < n
    ensures r == 0 <==> n == 0
  {
    var q := (n + k - 1) / k;
    assert q * k + (n + k - 1) % k == n + k - 1;
    q
  }

  /** How `slice` resolves one of its arguments against a length:
      negative values count from the end, and the result is clamped to [0, len]. */
  function SliceIndex(len: nat, i: int): (r: nat)
    ensures r <= len
    ensures 0 <= i ==> r == Min(i, len)
  {
    if i < 0 then Max(len + i, 0) else Min(i, len)
  }

  /** `s.slice(start, end)`. */
  function JsSlice<T>(s: seq<T>, start: int, end: int): (r: seq<T>)
    ensures |r| <= |s|
    ensures 0 <= start <= end ==> r == s[Min(start, |s|)..Min(end, |s|)]
    ensures start <= end ==> |r| <= end - start
    ensures 0 <= end <= start ==> r == []
  {
    var a, b := SliceIndex(|s|, start), SliceIndex(|s|, end);
    if a < b then s[a..b] else []
  }

  function DigitChar(d: nat): (c: char)
    requires d < 10
    ensures '0' <= c <= '9'
  {
    (48 + d) as char
  }

  predicate IsDigit(c: char) { '0' <= c <= '9' }

  /** The decimal text of a whole number, as `${n}` writes it: no sign, no leading zero. */
  function NatToString(n: nat): (r: string)
    ensures |r| >= 1
    ensures forall i :: 0 <= i < |r| ==> IsDigit(r[i])
    ensures r[0] == '0' ==> n == 0
    decreases n
  {
    if n < 10 then [DigitChar(n)] else NatToString(n / 10) + [DigitChar(n % 10)]
  }

  /** `${i}` for an integer i. */
  function IntToString(i: int): (r: string)
    ensures i < 0 <==> (|r| > 0 && r[0] == '-')
    ensures i >= 0 ==> r == NatToString(i)
    ensures i < 0 ==> r[1..] == NatToString(-i)
  {
    if i < 0 then "-" + NatToString(-i) else NatToString(i)
  }

  /** The inverse of NatToString: reads a string of decimal digits. */
  function ParseDigits(s: string): nat
    requires forall i :: 0 <= i < |s| ==> IsDigit(s[i])
  {
    if s == [] then 0
    else
      assert IsDigit(s[|s| - 1]);
      ParseDigits(s[..|s| - 1]) * 10 + (s[|s| - 1] as int - 48)
  }

  lemma {:induction false} ParseNatToString(n: nat)
    ensures ParseDigits(NatToString(n)) == n
    decreases n
  {
    var r := NatToString(n);
    if n >= 10 {
      ParseNatToString(n / 10);
      assert r[..|r| - 1] == NatToString(n / 10);
    }
  }

  /** Decimal rendering never maps two numbers to the same text. */
  lemma NatToStringInjective(m: nat, n: nat)
    requires NatToString(m) == NatToString(n)
    ensures m == n
  {
    ParseNatToString(m);
    ParseNatToString(n);
  }

  /** p occurs in s starting at index i. */
  predicate InfixAt(s: string, p: string, i: int)
  {
    0 <= i <= |s| - |p| && s[i..i + |p|] == p
  }

  /** `s.includes(p)`, which is what a regular expression without anchors such as /list=/ tests. */
  function HasInfix(s: string, p: string): (r: bool)
    ensures r <==> exists i :: InfixAt(s, p, i)
    decreases |s|
  {
    if |s| < |p| then false
    else if s[..|p|] == p then
      assert InfixAt(s, p, 0);
      true
    else
      var r := HasInfix(s[1..], p);
      InfixShift(s, p);
      assert !InfixAt(s, p, 0);
      r
  }

  /** An occurrence in s after its first character is one in s[1..], one place earlier. */
  lemma InfixShift(s: string, p: string)
    requires |s| >= 1
    ensures forall i :: InfixAt(s[1..], p, i) ==> InfixAt(s, p, i + 1)
    ensures forall j :: InfixAt(s, p, j) && j >= 1 ==> InfixAt(s[1..], p, j - 1)
  {
    forall i | InfixAt(s[1..], p, i)
      ensures InfixAt(s, p, i + 1)
    {
      assert s[1..][i..i + |p|] == s[i + 1..i + 1 + |p|];
    }
    forall j | InfixAt(s, p, j) && j >= 1
      ensures InfixAt(s[1..], p, j - 1)
    {
      assert s[1..][j - 1..j - 1 + |p|] == s[j..j + |p|];
    }
  }

  /** `s.filter(f)`. */
  function Filter<T>(s: seq<T>, f: T -> bool): (r: seq<T>)
    ensures |r| <= |s|
    ensures forall i :: 0 <= i < |r| ==> f(r[i])
  {
    if s == [] then [] else (if f(s[0]) then [s[0]] else []) + Filter(s[1..], f)
  }

  /** The filter keeps exactly the elements that pass: each kept one is from the list, and
      each one of the list that passes is kept. */
  lemma {:induction false} FilterMembers<T>(s: seq<T>, f: T -> bool)
    ensures forall i :: 0 <= i < |Filter(s, f)| ==> Filter(s, f)[i] in s
    ensures forall i :: 0 <= i < |s| && f(s[i]) ==> s[i] in Filter(s, f)
  {
    if s != [] {
      FilterMembers(s[1..], f);
      var r, rest := Filter(s, f), Filter(s[1..], f);
      forall i | 0 <= i < |r|
        ensures r[i] in s
      {
        if !(f(s[0]) && i == 0) {
          var k := if f(s[0]) then i - 1 else i;
          assert r[i] == rest[k];
          assert rest[k] in s[1..];
        }
      }
      forall i | 0 <= i < |s| && f(s[i])
        ensures s[i] in r
      {
        if i > 0 {
          assert s[i] == s[1..][i - 1];
        }
      }
    }
  }

  lemma {:induction false} FilterAppend<T>(a: seq<T>, b: seq<T>, f: T -> bool)
    ensures Filter(a + b, f) == Filter(a, f) + Filter(b, f)
  {
    if a != [] {
      assert (a + b)[0] == a[0];
      assert (a + b)[1..] == a[1..] + b;
      FilterAppend(a[1..], b, f);
    } else {
      assert a + b == b;
    }
  }

  /** Filtering keeps a list whose every element passes. */
  lemma {:induction false} FilterKeepsAll<T>(s: seq<T>, f: T -> bool)
    requires forall i :: 0 <= i < |s| ==> f(s[i])
    ensures Filter(s, f) == s
  {
    if s != [] {
      FilterKeepsAll(s[1..], f);
    }
  }

  /** Concatenation of a list of strings: the text a loop of `+=` builds. */
  function Join(lines: seq<string>): string
  {
    if lines == [] then "" else lines[0] + Join(lines[1..])
  }

  lemma {:induction false} JoinSnoc(lines: seq<string>, x: string)
    ensures Join(lines + [x]) == Join(lines) + x
  {
    if lines != [] {
      assert (lines + [x])[1..] == lines[1..] + [x];
      JoinSnoc(lines[1..], x);
    }
  }

  lemma {:induction false} JoinAppend(a: seq<string>, b: seq<string>)
    ensures Join(a + b) == Join(a) + Join(b)
  {
    if a != [] {
      assert (a + b)[0] == a[0];
      assert (a + b)[1..] == a[1..] + b;
      JoinAppend(a[1..], b);
    } else {
      assert a + b == b;
    }
  }

  lemma FilterSingle<T>(x: T, f: T -> bool)
    ensures Filter([x], f) == if f(x) then [x] else []
  {
    assert [x][1..] == [];
  }

  /** Filtering out exactly one element (by position) leaves the rest in order. */
  lemma {:induction false} FilterDropsOne<T>(s: seq<T>, i: int, f: T -> bool)
    requires 0 <= i < |s| && !f(s[i])
    requires forall j :: 0 <= j < |s| && j != i ==> f(s[j])
    ensures Filter(s, f) == s[..i] + s[i + 1..]
  {
    var tail := s[1..];
    assert forall j :: 0 <= j < |tail| ==> tail[j] == s[j + 1];
    if i == 0 {
      FilterKeepsAll(tail, f);
    } else {
      FilterDropsOne(tail, i - 1, f);
      assert s[..i] == [s[0]] + tail[..i - 1];
      assert s[i + 1..] == tail[i..];
    }
  }
}
