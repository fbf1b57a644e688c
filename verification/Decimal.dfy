/** Decimal text and integers: the part of Go's strconv and strings packages that the parsers rely on. */
module Decimal {
  import opened Base

  predicate IsDigit(c: char) {
    '0' <= c <= '9'
  }

  predicate IsSign(c: char) {
    c == '+' || c == '-'
  }

  predicate AllDigits(s: string) {
    forall i :: 0 <= i < |s| ==> IsDigit(s[i])
  }

  function DigitValue(c: char): nat
    requires IsDigit(c)
  {
    c as int - '0' as int
  }

  /** The number a string of digits stands for; the empty string is zero. */
  function NatValue(s: string): nat
    requires AllDigits(s)
  {
    if s == "" then 0 else 10 * NatValue(s[..|s| - 1]) + DigitValue(s[|s| - 1])
  }

  /** strconv.ParseInt(s, 10, 64): an optional sign, then at least one digit, in range of int64. */
  function ParseInt64(s: string): (r: Option<int>)
    ensures r.Some? ==> InInt64(r.value)
  {
    if s == "" then None
    else
      var digits := if IsSign(s[0]) then s[1..] else s;
      if digits == "" || !AllDigits(digits) then None
      else
        var v: int := if s[0] == '-' then 0 - NatValue(digits) else NatValue(digits);
        if InInt64(v) then Some(v) else None
  }

  function DigitChar(d: nat): (c: char)
    requires d < 10
    ensures IsDigit(c) && DigitValue(c) == d
  {
    '0' + d as char
  }

  /** strconv.FormatUint. */
  function NatText(n: nat): (s: string)
    ensures s != "" && AllDigits(s)
    ensures NatValue(s) == n
  {
    if n < 10 then [DigitChar(n)]
    else
      var front := NatText(n / 10);
      NatValueAppend(front, DigitChar(n % 10));
      front + [DigitChar(n % 10)]
  }

  /** strconv.FormatInt(n, 10). */
  function IntText(n: int): string {
    if n < 0 then "-" + NatText(-n) else NatText(n)
  }

  /** Formatting and parsing are inverse on the whole int64 range. */
  lemma ParseIntText(n: int)
    requires InInt64(n)
    ensures ParseInt64(IntText(n)) == Some(n)
  {
    if n < 0 {
      var s := IntText(n);
      assert s[1..] == NatText(-n);
    } else {
      var s := IntText(n);
      assert IsDigit(s[0]);
    }
  }

  /** Appending digits shifts the value by a power of ten. */
  lemma NatValueAppend(s: string, c: char)
    requires AllDigits(s) && IsDigit(c)
    ensures AllDigits(s + [c]) && NatValue(s + [c]) == 10 * NatValue(s) + DigitValue(c)
  {
    assert (s + [c])[..|s|] == s;
  }

  /** unicode.IsSpace. */
  predicate IsSpace(c: char) {
    var n := c as int;
    || 9 <= n <= 13 || n == 0x20 || n == 0x85 || n == 0xA0
    || n == 0x1680 || 0x2000 <= n <= 0x200a || n == 0x2028 || n == 0x2029 || n == 0x202f
    || n == 0x205f || n == 0x3000
  }

  function TrimLeft(s: string): string {
    if s != "" && IsSpace(s[0]) then TrimLeft(s[1..]) else s
  }

  function TrimRight(s: string): string {
    if s != "" && IsSpace(s[|s| - 1]) then TrimRight(s[..|s| - 1]) else s
  }

  /** strings.TrimSpace. */
  function TrimSpace(s: string): string {
    TrimRight(TrimLeft(s))
  }

  predicate Trimmed(s: string) {
    s != "" ==> !IsSpace(s[0]) && !IsSpace(s[|s| - 1])
  }

  lemma TrimmedUnchanged(s: string)
    requires Trimmed(s)
    ensures TrimSpace(s) == s
  {
  }

  /** Trimming is complete: what is left starts and ends with something other than a space. */
  lemma TrimSpaceTrims(s: string)
    ensures Trimmed(TrimSpace(s))
  {
    TrimLeftTrims(s);
    TrimRightKeepsHead(TrimLeft(s));
  }

  /** Spaces around a text are trimmed, and they alone. */
  lemma TrimSpaceSkips(pre: string, s: string, post: string)
    requires forall c :: c in pre + post ==> IsSpace(c)
    ensures TrimSpace(pre + s + post) == TrimSpace(s)
  {
    hide TrimLeft, TrimRight;
    assert forall i :: 0 <= i < |pre| ==> pre[i] in pre + post;
    assert forall i :: 0 <= i < |post| ==> post[i] in pre + post;
    assert pre + s + post == pre + (s + post);
    TrimLeftSkips(pre, s + post);
    TrimLeftKeeps(s, post);
    TrimRightSkips(TrimLeft(s), post);
    TrimRightSkips("", post);
    assert "" + post == post;
  }

  lemma {:induction false} TrimLeftSkips(pre: string, s: string)
    requires forall i :: 0 <= i < |pre| ==> IsSpace(pre[i])
    ensures TrimLeft(pre + s) == TrimLeft(s)
  {
    if pre == "" {
      assert pre + s == s;
    } else {
      TrimLeftSkips(pre[1..], s);
      assert (pre + s)[1..] == pre[1..] + s;
    }
  }

  lemma {:induction false} TrimRightSkips(s: string, post: string)
    requires forall i :: 0 <= i < |post| ==> IsSpace(post[i])
    ensures TrimRight(s + post) == TrimRight(s)
  {
    if post == "" {
      assert s + post == s;
    } else {
      TrimRightSkips(s, post[..|post| - 1]);
      assert (s + post)[..|s + post| - 1] == s + post[..|post| - 1];
    }
  }

  /** What follows a text stays, unless there is nothing in the text to stop at. */
  lemma {:induction false} TrimLeftKeeps(s: string, post: string)
    requires forall i :: 0 <= i < |post| ==> IsSpace(post[i])
    ensures TrimLeft(s + post) == (if TrimLeft(s) == "" then "" else TrimLeft(s) + post)
  {
    if s == "" {
      assert s + post == post + "";
      TrimLeftSkips(post, "");
    } else if IsSpace(s[0]) {
      TrimLeftKeeps(s[1..], post);
      assert (s + post)[1..] == s[1..] + post;
    }
  }

  /** Nothing that can be seen is taken away. */
  lemma {:induction false} VisibleIsTrimmed(s: string)
    requires forall i :: 0 <= i < |s| ==> '!' <= s[i] <= '~'
    ensures Trimmed(s) && TrimSpace(s) == s
  {
    TrimmedUnchanged(s);
  }

  lemma TrimLeftTrims(s: string)
    ensures TrimLeft(s) != "" ==> !IsSpace(TrimLeft(s)[0])
  {
  }

  lemma TrimRightKeepsHead(s: string)
    ensures TrimRight(s) != "" ==> s != "" && TrimRight(s)[0] == s[0] && !IsSpace(TrimRight(s)[|TrimRight(s)| - 1])
  {
  }

  /** len(s) in Go: the number of UTF-8 bytes. */
  function ByteLen(s: string): nat {
    if s == "" then 0
    else
      var n := s[0] as int;
      (if n < 0x80 then 1 else if n < 0x800 then 2 else if n < 0x10000 then 3 else 4) + ByteLen(s[1..])
  }

  /** strings.Split(s, string(sep)) for a one-byte separator. */
  function Split(s: string, sep: char): (parts: seq<string>)
    ensures |parts| > 0
  {
    if s == "" then [""]
    else
      var rest := Split(s[1..], sep);
      if s[0] == sep then [""] + rest else [[s[0]] + rest[0]] + rest[1..]
  }

  /** strings.Join. */
  function Join(parts: seq<string>, sep: char): string
    requires |parts| > 0
  {
    if |parts| == 1 then parts[0] else parts[0] + [sep] + Join(parts[1..], sep)
  }

  /** Splitting is undone by joining, and no piece contains the separator. */
  lemma {:induction false} SplitJoin(s: string, sep: char)
    ensures Join(Split(s, sep), sep) == s
    ensures forall i :: 0 <= i < |Split(s, sep)| ==> sep !in Split(s, sep)[i]
  {
    if s != "" {
      var rest := Split(s[1..], sep);
      SplitJoin(s[1..], sep);
      if s[0] == sep {
        assert ([""] + rest)[1..] == rest;
        assert s == [sep] + s[1..];
      } else {
        var parts := [[s[0]] + rest[0]] + rest[1..];
        assert parts[1..] == rest[1..];
        assert s == [s[0]] + s[1..];
        if |rest| > 1 {
          assert Join(parts, sep) == [s[0]] + rest[0] + [sep] + Join(rest[1..], sep);
        }
      }
    }
  }

  lemma {:induction false} SplitTwo(a: string, b: string, sep: char)
    requires sep !in a && sep !in b
    ensures Split(a + [sep] + b, sep) == [a, b]
  {
    var s := a + [sep] + b;
    if a == "" {
      assert s[1..] == b;
      SplitNone(b, sep);
    } else {
      assert s[1..] == a[1..] + [sep] + b;
      SplitTwo(a[1..], b, sep);
      assert [s[0]] + a[1..] == a;
    }
  }

  lemma {:induction false} SplitNone(s: string, sep: char)
    requires sep !in s
    ensures Split(s, sep) == [s]
  {
    if s != "" {
      SplitNone(s[1..], sep);
      assert [s[0]] + s[1..] == s;
    }
  }
}
