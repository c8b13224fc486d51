/**
 * The JavaScript string operations the library relies on, restated over
 * `seq<char>`: `split`/`join` with a string separator, `trim`, `replace`,
 * ASCII case mapping, `Number.prototype.toString()` on integers and
 * `parseInt(s, 10)`.
 */
module Strings {
  import opened Wrappers

  // ---------------------------------------------------------------------------
  // split / join

  /**
   * `s.split(sep)` for a non-empty separator: the pieces between the
   * leftmost non-overlapping occurrences of `sep`.
   */
  function Split(s: string, sep: string): (parts: seq<string>)
    requires sep != []
    ensures |parts| >= 1
    decreases |s|
  {
    if |s| < |sep| then [s]
    else if s[..|sep|] == sep then [""] + Split(s[|sep|..], sep)
    else
      var rest := Split(s[1..], sep);
      [[s[0]] + rest[0]] + rest[1..]
  }

  /** Concatenation is associative (stated once, for any element type). */
  lemma AppendAssociates<T>(a: seq<T>, b: seq<T>, c: seq<T>)
    ensures a + (b + c) == (a + b) + c
  {
  }

  /** `parts.join(sep)`. */
  function Join(parts: seq<string>, sep: string): string
  {
    if |parts| == 0 then ""
    else if |parts| == 1 then parts[0]
    else parts[0] + sep + Join(parts[1..], sep)
  }

  lemma JoinPrependToFirst(x: string, parts: seq<string>, sep: string)
    requires |parts| >= 1
    ensures Join([x + parts[0]] + parts[1..], sep) == x + Join(parts, sep)
  {
    var p := [x + parts[0]] + parts[1..];
    assert p[1..] == parts[1..];
  }

  /** Splitting and joining again with the same separator gives back the string. */
  lemma {:induction false} JoinSplit(s: string, sep: string)
    requires sep != []
    ensures Join(Split(s, sep), sep) == s
    decreases |s|
  {
    if |s| < |sep| {
    } else if s[..|sep|] == sep {
      var rest := Split(s[|sep|..], sep);
      JoinSplit(s[|sep|..], sep);
      assert Split(s, sep) == [""] + rest;
      assert ([""] + rest)[1..] == rest;
      assert Join([""] + rest, sep) == "" + sep + Join(rest, sep);
      assert s == s[..|sep|] + s[|sep|..];
    } else {
      var rest := Split(s[1..], sep);
      JoinSplit(s[1..], sep);
      assert Split(s, sep) == [[s[0]] + rest[0]] + rest[1..];
      JoinPrependToFirst([s[0]], rest, sep);
      assert s == [s[0]] + s[1..];
    }
  }

  /** No piece of a split on a one-character separator contains that character. */
  lemma {:induction false} SplitPiecesAvoidSeparator(s: string, c: char)
    ensures forall p :: p in Split(s, [c]) ==> c !in p
    decreases |s|
  {
    if |s| < 1 {
    } else if s[..1] == [c] {
      SplitPiecesAvoidSeparator(s[1..], c);
    } else {
      var rest := Split(s[1..], [c]);
      SplitPiecesAvoidSeparator(s[1..], c);
      assert rest[0] in rest;
      forall p | p in [[s[0]] + rest[0]] + rest[1..] ensures c !in p {
        if p != [s[0]] + rest[0] {
          assert p in rest;
        }
      }
    }
  }

  /** A string without the separator splits into itself alone. */
  lemma {:induction false} SplitWithoutSeparator(s: string, c: char)
    requires c !in s
    ensures Split(s, [c]) == [s]
    decreases |s|
  {
    if |s| >= 1 {
      assert s[0] != c;
      assert s[..1] == [s[0]];
      SplitWithoutSeparator(s[1..], c);
      assert [s[0]] + s[1..] == s;
    }
  }

  /** Splitting `a + c + b` on `c`, where `a` has no `c`, gives `a` and then the pieces of `b`. */
  lemma {:induction false} SplitAfterFirstSeparator(a: string, c: char, b: string)
    requires c !in a
    ensures Split(a + [c] + b, [c]) == [a] + Split(b, [c])
    decreases |a|
  {
    var s := a + [c] + b;
    if |a| == 0 {
      assert s[..1] == [c];
      assert s[1..] == b;
    } else {
      assert s[0] == a[0] && a[0] in a;
      assert s[..1] == [a[0]];
      assert s[1..] == a[1..] + [c] + b;
      SplitAfterFirstSeparator(a[1..], c, b);
      assert [a[0]] + a[1..] == a;
    }
  }

  /** Joining words that avoid `c` with `c`, then splitting on `c`, gives the words back. */
  lemma {:induction false} SplitJoin(words: seq<string>, c: char)
    requires |words| >= 1
    requires forall w :: w in words ==> c !in w
    ensures Split(Join(words, [c]), [c]) == words
    decreases |words|
  {
    if |words| == 1 {
      SplitWithoutSeparator(words[0], c);
    } else {
      assert words[0] in words;
      SplitAfterFirstSeparator(words[0], c, Join(words[1..], [c]));
      assert forall w :: w in words[1..] ==> w in words;
      SplitJoin(words[1..], c);
      assert [words[0]] + words[1..] == words;
    }
  }

  /** `s` with every `c` replaced by `d`. */
  function ReplaceChar(s: string, c: char, d: char): (r: string)
    ensures |r| == |s|
    ensures forall i :: 0 <= i < |s| ==> r[i] == if s[i] == c then d else s[i]
  {
    seq(|s|, i requires 0 <= i < |s| => if s[i] == c then d else s[i])
  }

  /** `s.split(c).join(d)` for single characters replaces every `c` by `d`. */
  lemma {:induction false} SplitJoinReplaces(s: string, c: char, d: char)
    ensures Join(Split(s, [c]), [d]) == ReplaceChar(s, c, d)
    decreases |s|
  {
    if |s| < 1 {
    } else if s[..1] == [c] {
      var rest := Split(s[1..], [c]);
      SplitJoinReplaces(s[1..], c, d);
      assert ([""] + rest)[1..] == rest;
      assert ReplaceChar(s, c, d) == [d] + ReplaceChar(s[1..], c, d);
    } else {
      var rest := Split(s[1..], [c]);
      SplitJoinReplaces(s[1..], c, d);
      JoinPrependToFirst([s[0]], rest, [d]);
      assert ReplaceChar(s, c, d) == [s[0]] + ReplaceChar(s[1..], c, d);
    }
  }

  // ---------------------------------------------------------------------------
  // replace

  /** `s.replace(c, '')` with a one-character string pattern: drops the first `c` only. */
  function RemoveFirst(s: string, c: char): (r: string)
    ensures c !in s ==> r == s
    ensures c in s ==> |r| == |s| - 1 && multiset(r) + multiset{c} == multiset(s)
  {
    if |s| == 0 then s
    else
      assert s == [s[0]] + s[1..];
      if s[0] == c then s[1..] else [s[0]] + RemoveFirst(s[1..], c)
  }

  /** `s.replace(/c/g, '')`: drops every `c`, keeps every other character in order. */
  function RemoveAll(s: string, c: char): (r: string)
    ensures c !in r
    ensures c !in s ==> r == s
    ensures |r| + multiset(s)[c] == |s|
    ensures forall x :: x != c ==> multiset(r)[x] == multiset(s)[x]
  {
    if |s| == 0 then s
    else
      assert s == [s[0]] + s[1..];
      if s[0] == c then RemoveAll(s[1..], c) else [s[0]] + RemoveAll(s[1..], c)
  }

  // ---------------------------------------------------------------------------
  // trim

  /** The characters `String.prototype.trim` removes: WhiteSpace and LineTerminator. */
  predicate IsJsSpace(c: char)
  {
    c == ' ' || c == '\t' || c == '\n' || c == '\r' || c == '\U{B}' || c == '\U{C}'
    || c == '\U{A0}' || c == '\U{FEFF}' || c == '\U{1680}' || ('\U{2000}' <= c <= '\U{200A}')
    || c == '\U{2028}' || c == '\U{2029}' || c == '\U{202F}' || c == '\U{205F}' || c == '\U{3000}'
  }

  /** Removes leading white space: the result is a suffix and only white space was dropped. */
  function TrimStart(s: string): (r: string)
    ensures |r| <= |s| && r == s[|s| - |r|..]
    ensures forall i :: 0 <= i < |s| - |r| ==> IsJsSpace(s[i])
    ensures r == [] || !IsJsSpace(r[0])
  {
    if |s| > 0 && IsJsSpace(s[0]) then TrimStart(s[1..]) else s
  }

  /** Removes trailing white space: the result is a prefix and only white space was dropped. */
  function TrimEnd(s: string): (r: string)
    ensures |r| <= |s| && r == s[..|r|]
    ensures forall i :: |r| <= i < |s| ==> IsJsSpace(s[i])
    ensures r == [] || !IsJsSpace(r[|r| - 1])
  {
    if |s| > 0 && IsJsSpace(s[|s| - 1]) then TrimEnd(s[..|s| - 1]) else s
  }

  function Trim(s: string): string
  {
    TrimEnd(TrimStart(s))
  }

  /** A string that neither starts nor ends with white space is its own trim. */
  lemma TrimUntouched(s: string)
    requires s == [] || (!IsJsSpace(s[0]) && !IsJsSpace(s[|s| - 1]))
    ensures Trim(s) == s
  {
  }

  // ---------------------------------------------------------------------------
  // ASCII case

  predicate IsUpper(c: char) { 'A' <= c <= 'Z' }
  predicate IsLower(c: char) { 'a' <= c <= 'z' }

  function ToUpperChar(c: char): (u: char)
    ensures IsLower(c) ==> IsUpper(u) && u as int == c as int - 32
    ensures !IsLower(c) ==> u == c
  {
    if IsLower(c) then (c as int - 32) as char else c
  }

  function ToLowerChar(c: char): (l: char)
    ensures IsUpper(c) ==> IsLower(l) && l as int == c as int + 32
    ensures !IsUpper(c) ==> l == c
    ensures !IsUpper(l)
  {
    if IsUpper(c) then (c as int + 32) as char else c
  }

  /** `s.toLowerCase()` on the ASCII range. */
  function ToLower(s: string): (r: string)
    ensures |r| == |s|
    ensures forall i :: 0 <= i < |s| ==> r[i] == ToLowerChar(s[i])
  {
    seq(|s|, i requires 0 <= i < |s| => ToLowerChar(s[i]))
  }

  // ---------------------------------------------------------------------------
  // integers as decimal text

  predicate IsDigit(c: char) { '0' <= c <= '9' }

  predicate AllDigits(s: string) { forall i :: 0 <= i < |s| ==> IsDigit(s[i]) }

  function DigitChar(d: int): (c: char)
    requires 0 <= d < 10
    ensures IsDigit(c) && DigitValue(c) == d
  {
    ('0' as int + d) as char
  }

  function DigitValue(c: char): int
    requires IsDigit(c)
  {
    c as int - '0' as int
  }

  /** The decimal digits of `n`, most significant first, without leading zeros. */
  function NatToString(n: nat): (r: string)
    ensures |r| >= 1 && AllDigits(r)
    ensures |r| > 1 ==> r[0] != '0'
    decreases n
  {
    if n < 10 then [DigitChar(n)] else NatToString(n / 10) + [DigitChar(n % 10)]
  }

  /** `n.toString()` for an integer `n`. */
  function IntToString(n: int): (r: string)
    ensures |r| >= 1
    ensures n >= 0 ==> AllDigits(r)
    ensures n < 0 ==> r[0] == '-' && AllDigits(r[1..])
  {
    if n < 0 then "-" + NatToString(-n) else NatToString(n)
  }

  /** The value of a string of decimal digits. */
  function DigitsValue(s: string): nat
    requires AllDigits(s)
  {
    if s == [] then 0 else DigitsValue(s[..|s| - 1]) * 10 + DigitValue(s[|s| - 1])
  }

  lemma {:induction false} NatToStringValue(n: nat)
    ensures DigitsValue(NatToString(n)) == n
    decreases n
  {
    if n >= 10 {
      var s := NatToString(n);
      NatToStringValue(n / 10);
      assert s[..|s| - 1] == NatToString(n / 10);
    }
  }

  /** The length of the longest prefix of `s` made of decimal digits. */
  function DigitRun(s: string): (k: nat)
    ensures k <= |s| && AllDigits(s[..k])
    ensures k < |s| ==> !IsDigit(s[k])
  {
    if |s| > 0 && IsDigit(s[0]) then 1 + DigitRun(s[1..]) else 0
  }

  /**
   * `parseInt(s, 10)`: skip leading white space, read an optional sign, then
   * the longest run of digits; `None` stands for `NaN` (no digit at all).
   */
  function ParseInt(s: string): (r: Option<int>)
    ensures r.None? <==> DigitRun(SignStripped(TrimStart(s))) == 0
  {
    var t := TrimStart(s);
    var digits := SignStripped(t);
    var k := DigitRun(digits);
    if k == 0 then None
    else if |t| > 0 && t[0] == '-' then Some(-(DigitsValue(digits[..k]) as int))
    else Some(DigitsValue(digits[..k]))
  }

  function SignStripped(t: string): string
  {
    if |t| > 0 && (t[0] == '-' || t[0] == '+') then t[1..] else t
  }

  /** Reading back an integer's decimal text gives the integer. */
  lemma ParseIntOfIntToString(n: int)
    ensures ParseInt(IntToString(n)) == Some(n)
  {
    var m: nat := if n < 0 then -n else n;
    var digits := NatToString(m);
    var s := IntToString(n);
    assert !IsJsSpace(s[0]);
    assert TrimStart(s) == s;
    assert SignStripped(s) == digits;
    DigitRunOfDigits(digits);
    assert digits[..|digits|] == digits;
    NatToStringValue(m);
  }

  lemma {:induction false} DigitRunOfDigits(s: string)
    requires AllDigits(s)
    ensures DigitRun(s) == |s|
    decreases |s|
  {
    if |s| > 0 {
      DigitRunOfDigits(s[1..]);
    }
  }

  /** The most significant decimal digit of `n`. */
  function LeadingDigit(n: nat): (d: nat)
    ensures d < 10
    ensures n > 0 ==> d > 0
  {
    if n < 10 then n else LeadingDigit(n / 10)
  }

  /** The first character of a natural number's decimal text is its leading digit. */
  lemma {:induction false} FirstCharIsLeadingDigit(n: nat)
    ensures NatToString(n)[0] == DigitChar(LeadingDigit(n))
    decreases n
  {
    if n >= 10 {
      FirstCharIsLeadingDigit(n / 10);
    }
  }

  /**
   * `Number(n.toString().trim().slice(0, 1))`: the first character of the
   * decimal text as a number, `None` standing for `NaN` (the `-` of a
   * negative number); `Number('')` would be 0.
   */
  function FirstDigit(n: int): Option<nat>
  {
    var t := Trim(IntToString(n));
    if t == [] then Some(0)
    else if IsDigit(t[0]) then Some(DigitValue(t[0]) as nat)
    else None
  }

  /** The first character of a positive number is its leading digit; zero gives 0; a negative number gives `NaN`. */
  lemma FirstDigitSpec(n: int)
    ensures n > 0 ==> FirstDigit(n) == Some(LeadingDigit(n))
    ensures n == 0 ==> FirstDigit(n) == Some(0)
    ensures n < 0 ==> FirstDigit(n) == None
  {
    var s := IntToString(n);
    assert !IsJsSpace(s[0]) && !IsJsSpace(s[|s| - 1]);
    TrimUntouched(s);
    if n >= 0 {
      FirstCharIsLeadingDigit(n);
    }
  }
}
