/** The Python string operations the pipeline relies on: str.startswith / str.endswith, str.find,
    os.path.splitext, int(), f-string rendering of a non-negative int, str.replace and str.strip. */
module Text {
  import opened Results

  predicate StartsWith(s: string, prefix: string) {
    |prefix| <= |s| && s[..|prefix|] == prefix
  }

  predicate EndsWith(s: string, suffix: string) {
    |suffix| <= |s| && s[|s| - |suffix|..] == suffix
  }

  /** `pat` occurs in `s` at index `i`. */
  predicate OccursAt(s: string, pat: string, i: int) {
    0 <= i && i + |pat| <= |s| && s[i..i + |pat|] == pat
  }

  /** `pat in s` */
  predicate Contains(s: string, pat: string) {
    exists i :: 0 <= i <= |s| && OccursAt(s, pat, i)
  }

  /** Index of the first `c` in `s`, or -1 when there is none (str.find). */
  function IndexOf(s: string, c: char): (k: int)
    ensures -1 <= k < |s|
    ensures 0 <= k ==> s[k] == c
    ensures forall j :: 0 <= j < |s| && (k == -1 || j < k) ==> s[j] != c
  {
    if s == [] then -1
    else if s[0] == c then 0
    else
      var k := IndexOf(s[1..], c);
      if k == -1 then -1 else k + 1
  }

  /** Index of the last `c` in `s`, or -1 when there is none (str.rfind). */
  function LastIndexOf(s: string, c: char): (k: int)
    ensures -1 <= k < |s|
    ensures 0 <= k ==> s[k] == c
    ensures forall j :: k < j < |s| ==> s[j] != c
  {
    if s == [] then -1
    else if s[|s| - 1] == c then |s| - 1
    else LastIndexOf(s[..|s| - 1], c)
  }

  predicate OnlyDots(s: string) {
    forall i :: 0 <= i < |s| ==> s[i] == '.'
  }

  /** os.path.splitext of a bare file name (os.listdir yields names without a directory
      separator): the extension runs from the last '.', except that a '.' preceded only by
      '.'s (".wav", "..mp3") starts no extension. */
  function SplitExt(name: string): (r: (string, string))
    ensures r.0 + r.1 == name
    ensures r.1 != [] <==> exists j, k :: 0 <= j < k < |name| && name[j] != '.' && name[k] == '.'
    ensures r.1 != [] ==> r.1[0] == '.' && forall j :: 0 < j < |r.1| ==> r.1[j] != '.'
  {
    var k := LastIndexOf(name, '.');
    if 0 < k && !OnlyDots(name[..k]) then (name[..k], name[k..]) else (name, [])
  }

  /** os.path.splitext(name)[0] */
  function Stem(name: string): string {
    SplitExt(name).0
  }

  /** os.path.splitext(name)[1][1:]: the extension without its dot, "" when there is none. */
  function Ext(name: string): string {
    var e := SplitExt(name).1;
    if e == [] then [] else e[1..]
  }

  predicate IsDigit(c: char) {
    '0' <= c <= '9'
  }

  predicate AllDigits(s: string) {
    forall i :: 0 <= i < |s| ==> IsDigit(s[i])
  }

  function DigitsValue(s: string): nat
    requires AllDigits(s)
  {
    if s == [] then 0 else 10 * DigitsValue(s[..|s| - 1]) + (s[|s| - 1] as int - '0' as int)
  }

  /** Python's int(s) restricted to an optional sign followed by ASCII digits; None where
      int() raises ValueError. */
  function ParseInt(s: string): (r: Option<int>)
    ensures r.Some? <==> && s != []
                         && (AllDigits(s) || (|s| >= 2 && (s[0] == '-' || s[0] == '+') && AllDigits(s[1..])))
    ensures r.Some? && r.value < 0 ==> s[0] == '-'
    ensures r.Some? && s[0] != '-' ==> r.value >= 0
  {
    if s != [] && AllDigits(s) then Some(DigitsValue(s))
    else if |s| >= 2 && s[0] == '-' && AllDigits(s[1..]) then Some(-(DigitsValue(s[1..]) as int))
    else if |s| >= 2 && s[0] == '+' && AllDigits(s[1..]) then Some(DigitsValue(s[1..]))
    else None
  }

  /** `int(s)` succeeds and yields a number greater than `bound`. */
  predicate IntAbove(s: string, bound: int) {
    ParseInt(s).Some? && ParseInt(s).value > bound
  }

  function DigitChar(d: nat): char
    requires d < 10
  {
    ('0' as int + d) as char
  }

  /** f"{n}" for a non-negative int: decimal digits without leading zeros. */
  function ShowNat(n: nat): (r: string)
    ensures r != [] && AllDigits(r)
    ensures r[0] == '0' <==> n == 0
    ensures |r| > 1 ==> r[0] != '0'
  {
    if n < 10 then [DigitChar(n)] else ShowNat(n / 10) + [DigitChar(n % 10)]
  }

  lemma {:induction false} ShowNatValue(n: nat)
    ensures DigitsValue(ShowNat(n)) == n
  {
    var s := ShowNat(n);
    if n < 10 {
      assert s[..|s| - 1] == [];
    } else {
      assert s[..|s| - 1] == ShowNat(n / 10);
      ShowNatValue(n / 10);
    }
  }

  /** int(f"{n}") == n: rendering a count and parsing it back is the identity. */
  lemma ParseShowNat(n: nat)
    ensures ParseInt(ShowNat(n)) == Some(n)
  {
    ShowNatValue(n);
  }

  /** int("-" + f"{n}") == -n: a minus sign negates the value. */
  lemma ParseNegative(n: nat)
    ensures ParseInt("-" + ShowNat(n)) == Some(-(n as int))
  {
    var s := "-" + ShowNat(n);
    assert s[1..] == ShowNat(n);
    assert !IsDigit(s[0]);
    ShowNatValue(n);
  }

  /** int("+" + f"{n}") == n: a plus sign is ignored. */
  lemma ParsePlus(n: nat)
    ensures ParseInt("+" + ShowNat(n)) == Some(n)
  {
    var s := "+" + ShowNat(n);
    assert s[1..] == ShowNat(n);
    assert !IsDigit(s[0]);
    ShowNatValue(n);
  }

  /** int("0" + s) == int(s) for a digit string: leading zeros do not change the value. */
  lemma ParseLeadingZero(s: string)
    requires s != [] && AllDigits(s)
    ensures ParseInt("0" + s) == ParseInt(s)
  {
    LeadingZeroValue(s);
  }

  lemma {:induction false} LeadingZeroValue(s: string)
    requires AllDigits(s)
    ensures AllDigits("0" + s) && DigitsValue("0" + s) == DigitsValue(s)
  {
    var z := "0" + s;
    assert AllDigits(z) by {
      assert forall i :: 0 < i < |z| ==> z[i] == s[i - 1];
    }
    if s != [] {
      var init := s[..|s| - 1];
      assert AllDigits(init);
      LeadingZeroValue(init);
      assert z[..|z| - 1] == "0" + init;
    }
  }

  /** Distinct numbers render as distinct strings. */
  lemma ShowNatInjective(a: nat, b: nat)
    ensures ShowNat(a) == ShowNat(b) ==> a == b
  {
    ParseShowNat(a);
    ParseShowNat(b);
  }

  /** s.replace(pat, rep): non-overlapping occurrences of `pat`, scanned left to right, are
      replaced by `rep`. (The source only replaces non-empty patterns.) */
  function Replace(s: string, pat: string, rep: string): (r: string)
    requires pat != []
    ensures |pat| == |rep| ==> |r| == |s|
    ensures pat == rep ==> r == s
    decreases |s|
  {
    if |s| < |pat| then s
    else if s[..|pat|] == pat then rep + Replace(s[|pat|..], pat, rep)
    else [s[0]] + Replace(s[1..], pat, rep)
  }

  /** Every occurrence is replaced, left to right: the text before the first occurrence is
      kept, that occurrence becomes `rep`, and the scan resumes right after it. */
  lemma ReplaceFirst(s: string, pat: string, rep: string, i: nat)
    requires pat != [] && OccursAt(s, pat, i)
    requires forall j :: 0 <= j < i ==> !OccursAt(s, pat, j)
    ensures Replace(s, pat, rep) == s[..i] + rep + Replace(s[i + |pat|..], pat, rep)
  {
    ReplaceFrom(s, pat, rep, 0, i);
    assert s[0..] == s && s[0..i] == s[..i];
  }

  /** ReplaceFirst for the scan that has reached position `k`. */
  lemma {:induction false} ReplaceFrom(s: string, pat: string, rep: string, k: nat, i: nat)
    requires pat != [] && k <= i && OccursAt(s, pat, i)
    requires forall j :: k <= j < i ==> !OccursAt(s, pat, j)
    ensures Replace(s[k..], pat, rep) == s[k..i] + rep + Replace(s[i + |pat|..], pat, rep)
    decreases i - k
  {
    if k == i {
      ReplaceMatchAt(s, pat, rep, i);
    } else {
      ReplaceSkipAt(s, pat, rep, k);
      ReplaceFrom(s, pat, rep, k + 1, i);
      ConsSlice(s, k, i, Replace(s[k..], pat, rep), Replace(s[k + 1..], pat, rep), rep,
                Replace(s[i + |pat|..], pat, rep));
    }
  }

  lemma ReplaceMatchAt(s: string, pat: string, rep: string, i: nat)
    requires pat != [] && OccursAt(s, pat, i)
    ensures Replace(s[i..], pat, rep) == s[i..i] + rep + Replace(s[i + |pat|..], pat, rep)
  {
    assert s[i..][..|pat|] == pat;
    assert s[i..][|pat|..] == s[i + |pat|..];
    assert s[i..i] + rep == rep;
  }

  lemma ReplaceSkipAt(s: string, pat: string, rep: string, k: nat)
    requires pat != [] && k < |s| && !OccursAt(s, pat, k)
    ensures Replace(s[k..], pat, rep) == [s[k]] + Replace(s[k + 1..], pat, rep)
  {
    assert s[k..][1..] == s[k + 1..];
    if |s[k..]| >= |pat| {
      assert s[k..][..|pat|] == s[k..k + |pat|];
    }
  }

  lemma ConsSlice(s: string, k: nat, i: nat, whole: string, tail: string, mid: string, rest: string)
    requires k < i <= |s|
    requires whole == [s[k]] + tail && tail == s[k + 1..i] + mid + rest
    ensures whole == s[k..i] + mid + rest
  {
    assert [s[k]] + s[k + 1..i] == s[k..i];
  }

  /** A string in which the pattern does not occur comes back unchanged. */
  lemma {:induction false} ReplaceAbsent(s: string, pat: string, rep: string)
    requires pat != [] && !Contains(s, pat)
    ensures Replace(s, pat, rep) == s
    decreases |s|
  {
    if |s| >= |pat| {
      assert !OccursAt(s, pat, 0);
      assert !Contains(s[1..], pat) by {
        if Contains(s[1..], pat) {
          var i :| 0 <= i <= |s[1..]| && OccursAt(s[1..], pat, i);
          assert s[i + 1..i + 1 + |pat|] == s[1..][i..i + |pat|];
          assert OccursAt(s, pat, i + 1);
        }
      }
      ReplaceAbsent(s[1..], pat, rep);
    }
  }

  /** Replacing one character by another rewrites exactly the positions holding it. */
  lemma {:induction false} ReplaceChar(s: string, c: char, d: char)
    ensures |Replace(s, [c], [d])| == |s|
    ensures forall i :: 0 <= i < |s| ==> Replace(s, [c], [d])[i] == if s[i] == c then d else s[i]
  {
    if |s| >= 1 {
      ReplaceChar(s[1..], c, d);
    }
  }

  /** Python's str.isspace() characters. */
  predicate IsSpace(c: char) {
    var k := c as int;
    || 9 <= k <= 13 || 28 <= k <= 32 || k == 0x85 || k == 0xA0 || k == 0x1680
    || 0x2000 <= k <= 0x200A || k == 0x2028 || k == 0x2029 || k == 0x202F || k == 0x205F
    || k == 0x3000
  }

  function StripStart(s: string): (r: string)
    ensures |r| <= |s| && r == s[|s| - |r|..]
    ensures forall i :: 0 <= i < |s| - |r| ==> IsSpace(s[i])
    ensures r != [] ==> !IsSpace(r[0])
  {
    if s != [] && IsSpace(s[0]) then StripStart(s[1..]) else s
  }

  function StripEnd(s: string): (r: string)
    ensures |r| <= |s| && r == s[..|r|]
    ensures forall i :: |r| <= i < |s| ==> IsSpace(s[i])
    ensures r != [] ==> !IsSpace(r[|r| - 1])
  {
    if s != [] && IsSpace(s[|s| - 1]) then StripEnd(s[..|s| - 1]) else s
  }

  /** s.strip(): `s` without its leading and trailing whitespace. */
  function Strip(s: string): (r: string)
    ensures r == [] <==> forall i :: 0 <= i < |s| ==> IsSpace(s[i])
    ensures r != [] ==> !IsSpace(r[0]) && !IsSpace(r[|r| - 1])
    ensures exists i, j :: 0 <= i <= j <= |s| && r == s[i..j] && OnlySpaceOutside(s, i, j)
  {
    var t := StripStart(s);
    var r := StripEnd(t);
    StripSlice(s, t, r);
    r
  }

  /** Every character of `s` outside s[i..j] is whitespace. */
  predicate OnlySpaceOutside(s: string, i: int, j: int) {
    forall k :: 0 <= k < |s| && !(i <= k < j) ==> IsSpace(s[k])
  }

  /** The stripped string is a slice of `s` with only whitespace around it. */
  lemma StripSlice(s: string, t: string, r: string)
    requires |t| <= |s| && t == s[|s| - |t|..] && |r| <= |t| && r == t[..|r|]
    requires forall k :: 0 <= k < |s| - |t| ==> IsSpace(s[k])
    requires forall k :: |r| <= k < |t| ==> IsSpace(t[k])
    ensures var i := |s| - |t|; r == s[i..i + |r|] && OnlySpaceOutside(s, i, i + |r|)
  {
    var i := |s| - |t|;
    forall k | 0 <= k < |r|
      ensures r[k] == s[i + k]
    {
      assert r[k] == t[k] == s[i..][k];
    }
    forall k | i + |r| <= k < |s|
      ensures IsSpace(s[k])
    {
      assert s[k] == s[i..][k - i] == t[k - i];
    }
  }
}
