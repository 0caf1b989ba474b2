/** The string handling the console and the NPC registry rely on: ASCII
    whitespace and case, `trim`, `to_lowercase`, `split_whitespace`, `join`,
    and printing and parsing of 32-bit decimal integers. `SplitOn` serves only
    the lemmas that read joined and multi-line output back. */
module Text {
  import opened Wrappers

  /** Rust's `i32`, as a subset of the unbounded integers. */
  const INT32_MIN: int := -0x8000_0000
  const INT32_MAX: int := 0x7FFF_FFFF
  type int32 = x: int | -0x8000_0000 <= x <= 0x7FFF_FFFF

  // ---------------------------------------------------------------- characters

  /** The ASCII part of `char::is_whitespace`: tab, line feed, vertical tab,
      form feed, carriage return and space. */
  predicate IsWhitespace(c: char) { c == ' ' || '\t' <= c <= '\r' }

  predicate IsUpper(c: char) { 'A' <= c <= 'Z' }

  predicate IsDigit(c: char) { '0' <= c <= '9' }

  function LowerChar(c: char): char { if IsUpper(c) then (c as int + 32) as char else c }

  function UpperChar(c: char): char { if 'a' <= c <= 'z' then (c as int - 32) as char else c }

  predicate NoWhitespace(s: string) { forall i :: 0 <= i < |s| ==> !IsWhitespace(s[i]) }

  predicate AllWhitespace(s: string) { forall i :: 0 <= i < |s| ==> IsWhitespace(s[i]) }

  predicate NoUpper(s: string) { forall i :: 0 <= i < |s| ==> !IsUpper(s[i]) }

  /** `to_lowercase`, restricted to ASCII letters. */
  function Lower(s: string): string { seq(|s|, i requires 0 <= i < |s| => LowerChar(s[i])) }

  /** `to_uppercase`, restricted to ASCII letters. */
  function Upper(s: string): string { seq(|s|, i requires 0 <= i < |s| => UpperChar(s[i])) }

  // ---------------------------------------------------------------- trimming

  /** Number of whitespace characters at the start of `s`. */
  function LeadingWhitespace(s: string): (n: nat)
    ensures n <= |s|
  {
    if s != [] && IsWhitespace(s[0]) then 1 + LeadingWhitespace(s[1..]) else 0
  }

  /** Number of whitespace characters at the end of `s`. */
  function TrailingWhitespace(s: string): (n: nat)
    ensures n <= |s|
  {
    if s != [] && IsWhitespace(s[|s| - 1]) then 1 + TrailingWhitespace(s[..|s| - 1]) else 0
  }

  /** `trim_start`: the suffix left after dropping the leading whitespace. */
  function TrimStart(s: string): string { s[LeadingWhitespace(s)..] }

  /** `trim_end`: the prefix left after dropping the trailing whitespace. */
  function TrimEnd(s: string): string { s[..|s| - TrailingWhitespace(s)] }

  /** `trim`: leading and trailing whitespace removed. */
  function Trim(s: string): (r: string)
    ensures |r| <= |s|
  {
    TrimEnd(TrimStart(s))
  }

  /** The leading run is whitespace, and what follows it is not. */
  lemma {:induction false} LeadingWhitespaceRun(s: string)
    ensures var n := LeadingWhitespace(s);
      AllWhitespace(s[..n]) && (n < |s| ==> !IsWhitespace(s[n]))
    decreases |s|
  {
    if s != [] && IsWhitespace(s[0]) {
      LeadingWhitespaceRun(s[1..]);
      var n := LeadingWhitespace(s);
      assert s[..n] == [s[0]] + s[1..][..n - 1];
    }
  }

  /** The trailing run is whitespace, and what precedes it is not. */
  lemma {:induction false} TrailingWhitespaceRun(s: string)
    ensures var n := TrailingWhitespace(s);
      AllWhitespace(s[|s| - n..]) && (n < |s| ==> !IsWhitespace(s[|s| - 1 - n]))
    decreases |s|
  {
    if s != [] && IsWhitespace(s[|s| - 1]) {
      TrailingWhitespaceRun(s[..|s| - 1]);
      var n := TrailingWhitespace(s);
      assert s[|s| - n..] == s[..|s| - 1][|s| - n..] + [s[|s| - 1]];
    }
  }

  /** A trimmed string is no longer than the original, and neither of its
      ends is whitespace. */
  lemma TrimEnds(s: string)
    ensures var r := Trim(s);
      |r| <= |s| && (r != [] ==> !IsWhitespace(r[0]) && !IsWhitespace(r[|r| - 1]))
  {
    var t := TrimStart(s);
    LeadingWhitespaceRun(s);
    TrailingWhitespaceRun(t);
    var r := Trim(s);
    assert r != [] ==> r[0] == t[0];
  }

  /** The lookup key of the command and NPC registries: `name.trim().to_lowercase()`. */
  function Normalize(s: string): (r: string)
    ensures |r| == |Trim(s)| && NoUpper(r)
  {
    Lower(Trim(s))
  }

  lemma {:induction false} LeadingOfPadded(a: string, s: string)
    requires AllWhitespace(a)
    ensures LeadingWhitespace(a + s) == |a| + LeadingWhitespace(s)
    decreases |a|
  {
    if a != [] {
      assert (a + s)[1..] == a[1..] + s;
      LeadingOfPadded(a[1..], s);
    } else {
      assert a + s == s;
    }
  }

  lemma {:induction false} TrailingOfPadded(s: string, b: string)
    requires AllWhitespace(b)
    ensures TrailingWhitespace(s + b) == |b| + TrailingWhitespace(s)
    decreases |b|
  {
    if b != [] {
      assert (s + b)[..|s + b| - 1] == s + b[..|b| - 1];
      TrailingOfPadded(s, b[..|b| - 1]);
    } else {
      assert s + b == s;
    }
  }

  lemma {:induction false} LeadingOfAppend(s: string, b: string)
    ensures LeadingWhitespace(s) < |s| ==> LeadingWhitespace(s + b) == LeadingWhitespace(s)
    ensures LeadingWhitespace(s) == |s| ==> LeadingWhitespace(s + b) == |s| + LeadingWhitespace(b)
    decreases |s|
  {
    if s == [] {
      assert s + b == b;
    } else if IsWhitespace(s[0]) {
      assert (s + b)[1..] == s[1..] + b;
      LeadingOfAppend(s[1..], b);
    } else {
      assert (s + b)[0] == s[0];
    }
  }

  lemma TrimStartOfPadded(a: string, s: string)
    requires AllWhitespace(a)
    ensures TrimStart(a + s) == TrimStart(s)
  {
    LeadingOfPadded(a, s);
    DropPastPrefix(a, s, LeadingWhitespace(s));
  }

  lemma TrimEndOfPadded(s: string, b: string)
    requires AllWhitespace(b)
    ensures TrimEnd(s + b) == TrimEnd(s)
  {
    TrailingOfPadded(s, b);
    assert (s + b)[..|s| - TrailingWhitespace(s)] == s[..|s| - TrailingWhitespace(s)];
  }

  lemma TrimStartOfAppend(s: string, b: string)
    requires LeadingWhitespace(s) < |s|
    ensures TrimStart(s + b) == TrimStart(s) + b
  {
    LeadingOfAppend(s, b);
    DropOfAppend(s, b, LeadingWhitespace(s));
  }

  /** Whitespace around a name never changes its trimmed form. */
  lemma TrimOfPadded(a: string, s: string, b: string)
    requires AllWhitespace(a) && AllWhitespace(b)
    ensures Trim(a + s + b) == Trim(s)
  {
    assert a + s + b == a + (s + b);
    TrimStartOfPadded(a, s + b);
    if LeadingWhitespace(s) < |s| {
      TrimStartOfAppend(s, b);
      TrimEndOfPadded(TrimStart(s), b);
    } else {
      LeadingOfAppend(s, b);
      LeadingOfPadded(b, []);
      assert b + [] == b;
      assert TrimStart(s + b) == [];
      assert TrimStart(s) == [];
    }
  }

  /** A string with no whitespace at either end is its own trimmed form. */
  lemma TrimOfTrimmed(s: string)
    requires s != [] ==> !IsWhitespace(s[0]) && !IsWhitespace(s[|s| - 1])
    ensures Trim(s) == s
  {
  }

  lemma {:induction false} LeadingOfUpper(s: string)
    ensures LeadingWhitespace(Upper(s)) == LeadingWhitespace(s)
    decreases |s|
  {
    if s != [] {
      assert Upper(s)[1..] == Upper(s[1..]);
      LeadingOfUpper(s[1..]);
    }
  }

  lemma {:induction false} TrailingOfUpper(s: string)
    ensures TrailingWhitespace(Upper(s)) == TrailingWhitespace(s)
    decreases |s|
  {
    if s != [] {
      assert Upper(s)[..|s| - 1] == Upper(s[..|s| - 1]);
      TrailingOfUpper(s[..|s| - 1]);
    }
  }

  lemma TrimOfUpper(s: string)
    ensures Trim(Upper(s)) == Upper(Trim(s))
  {
    LeadingOfUpper(s);
    var t := TrimStart(s);
    assert TrimStart(Upper(s)) == Upper(t);
    TrailingOfUpper(t);
    assert TrimEnd(Upper(t)) == Upper(TrimEnd(t));
  }

  /** Normalising ignores surrounding whitespace. */
  lemma NormalizeOfPadded(a: string, s: string, b: string)
    requires AllWhitespace(a) && AllWhitespace(b)
    ensures Normalize(a + s + b) == Normalize(s)
  {
    TrimOfPadded(a, s, b);
  }

  /** Normalising ignores ASCII case: upper-casing first changes nothing. */
  lemma NormalizeOfUpper(s: string)
    ensures Normalize(Upper(s)) == Normalize(s)
  {
    TrimOfUpper(s);
    var t := Trim(s);
    assert Lower(Upper(t)) == Lower(t);
  }

  /** A lower-case name without surrounding whitespace normalises to itself. */
  lemma NormalizeOfCanonical(s: string)
    requires NoWhitespace(s) && NoUpper(s)
    ensures Normalize(s) == s
  {
    TrimOfTrimmed(s);
    assert Lower(s) == s;
  }

  // ---------------------------------------------------------------- tokenising

  /** Length of the run of non-whitespace characters that starts `s`. */
  function TokenLength(s: string): (n: nat)
    ensures n <= |s|
    ensures s != [] && !IsWhitespace(s[0]) ==> n > 0
  {
    if s == [] || IsWhitespace(s[0]) then 0 else 1 + TokenLength(s[1..])
  }

  /** The token run holds no whitespace, and it ends at whitespace or at the end. */
  lemma {:induction false} TokenRun(s: string)
    ensures var n := TokenLength(s);
      NoWhitespace(s[..n]) && (n < |s| ==> IsWhitespace(s[n]))
    decreases |s|
  {
    if s != [] && !IsWhitespace(s[0]) {
      TokenRun(s[1..]);
      var n := TokenLength(s);
      assert s[..n] == [s[0]] + s[1..][..n - 1];
    }
  }

  /** `split_whitespace`: the maximal runs of non-whitespace characters, in order. */
  function SplitWhitespace(s: string): (tokens: seq<string>)
    ensures |tokens| <= |s|
    decreases |s|
  {
    if s == [] then []
    else if IsWhitespace(s[0]) then SplitWhitespace(s[1..])
    else
      var n := TokenLength(s);
      [s[..n]] + SplitWhitespace(s[n..])
  }

  /** Every token is non-empty and holds no whitespace. */
  lemma {:induction false} SplitWhitespaceTokens(s: string)
    ensures forall k :: 0 <= k < |SplitWhitespace(s)| ==>
      SplitWhitespace(s)[k] != [] && NoWhitespace(SplitWhitespace(s)[k])
    decreases |s|
  {
    if s != [] {
      if IsWhitespace(s[0]) {
        SplitWhitespaceTokens(s[1..]);
        assert SplitWhitespace(s) == SplitWhitespace(s[1..]);
      } else {
        var n := TokenLength(s);
        TokenRun(s);
        SplitWhitespaceTokens(s[n..]);
      }
    }
  }

  /** `join`: the parts with `sep` between neighbours. */
  function Join(parts: seq<string>, sep: string): (r: string)
    ensures |parts| > 0 ==> parts[0] <= r
  {
    if |parts| == 0 then ""
    else if |parts| == 1 then parts[0]
    else parts[0] + sep + Join(parts[1..], sep)
  }

  /** Three parts joined are the parts with the separator between each two. */
  lemma JoinThree(a: string, b: string, c: string, sep: string)
    ensures Join([a, b, c], sep) == a + sep + b + sep + c
  {
    var parts := [a, b, c];
    assert parts[1..] == [b, c] && [b, c][1..] == [c];
    assert Join([c], sep) == c;
    assert Join([b, c], sep) == b + sep + c;
    assert Join(parts, sep) == a + sep + (b + sep + c);
    AppendAssoc(a + sep, b + sep, c);
  }

  /** Concatenation is associative. */
  lemma AppendAssoc<T>(a: seq<T>, b: seq<T>, c: seq<T>)
    ensures (a + b) + c == a + (b + c)
  {
  }

  lemma DropOfAppend<T>(s: seq<T>, b: seq<T>, n: nat)
    requires n <= |s|
    ensures (s + b)[n..] == s[n..] + b
  {
  }

  lemma DropPastPrefix<T>(a: seq<T>, s: seq<T>, n: nat)
    requires n <= |s|
    ensures (a + s)[|a| + n..] == s[n..]
  {
  }

  /** A line is blank exactly when it has no tokens. */
  lemma {:induction false} SplitWhitespaceEmpty(s: string)
    ensures SplitWhitespace(s) == [] <==> AllWhitespace(s)
    decreases |s|
  {
    if s != [] && IsWhitespace(s[0]) {
      SplitWhitespaceEmpty(s[1..]);
      assert AllWhitespace(s) <==> AllWhitespace(s[1..]);
    }
  }

  lemma {:induction false} TokenLengthOfToken(t: string, rest: string)
    requires NoWhitespace(t)
    requires rest == [] || IsWhitespace(rest[0])
    ensures TokenLength(t + rest) == |t|
    decreases |t|
  {
    if t != [] {
      assert (t + rest)[1..] == t[1..] + rest;
      TokenLengthOfToken(t[1..], rest);
    } else {
      assert t + rest == rest;
    }
  }

  /** A token followed by whitespace comes out first, and the rest is split alone. */
  lemma SplitWhitespaceOfTokenThen(t: string, rest: string)
    requires t != [] && NoWhitespace(t)
    requires rest != [] && IsWhitespace(rest[0])
    ensures SplitWhitespace(t + rest) == [t] + SplitWhitespace(rest)
  {
    var s := t + rest;
    TokenLengthOfToken(t, rest);
    assert s[0] == t[0];
    assert s[..|t|] == t;
    assert s[|t|..] == rest;
  }

  /** A single whitespace character splits a line into the tokens of its two sides. */
  lemma {:induction false} SplitWhitespaceAround(a: string, c: char, b: string)
    requires IsWhitespace(c)
    ensures SplitWhitespace(a + [c] + b) == SplitWhitespace(a) + SplitWhitespace(b)
    decreases |a|, 1
  {
    var s := a + [c] + b;
    if a == [] {
      assert s == [c] + b;
      assert s[1..] == b;
    } else if IsWhitespace(a[0]) {
      assert s[1..] == a[1..] + [c] + b;
      SplitWhitespaceAround(a[1..], c, b);
    } else {
      SplitWhitespaceAroundToken(a, c, b);
    }
  }

  /** `SplitWhitespaceAround` when `a` starts with a token. */
  lemma {:induction false} SplitWhitespaceAroundToken(a: string, c: char, b: string)
    requires IsWhitespace(c) && a != [] && !IsWhitespace(a[0])
    ensures SplitWhitespace(a + [c] + b) == SplitWhitespace(a) + SplitWhitespace(b)
    decreases |a|, 0
  {
    var s := a + [c] + b;
    var n := TokenLength(a);
    TokenRun(a);
    var t := a[..n];
    var rest := a[n..] + [c] + b;
    assert s == t + rest;
    assert rest[0] == if n < |a| then a[n] else c;
    SplitWhitespaceOfTokenThen(t, rest);
    SplitWhitespaceAround(a[n..], c, b);
    assert SplitWhitespace(a) == [t] + SplitWhitespace(a[n..]);
    AppendAssoc([t], SplitWhitespace(a[n..]), SplitWhitespace(b));
  }

  /** A non-empty run of non-whitespace is one token. */
  lemma SplitWhitespaceOfToken(t: string)
    requires t != [] && NoWhitespace(t)
    ensures SplitWhitespace(t) == [t]
  {
    TokenLengthOfToken(t, []);
    assert t + [] == t;
    assert t[|t|..] == [];
  }

  /** Joining tokens with single spaces and splitting again gives the tokens back. */
  lemma {:induction false} SplitWhitespaceOfJoin(tokens: seq<string>)
    requires forall k :: 0 <= k < |tokens| ==> tokens[k] != [] && NoWhitespace(tokens[k])
    ensures SplitWhitespace(Join(tokens, " ")) == tokens
    decreases |tokens|
  {
    if |tokens| == 0 {
    } else if |tokens| == 1 {
      SplitWhitespaceOfToken(tokens[0]);
    } else {
      var rest := Join(tokens[1..], " ");
      assert Join(tokens, " ") == tokens[0] + [' '] + rest;
      SplitWhitespaceAround(tokens[0], ' ', rest);
      SplitWhitespaceOfToken(tokens[0]);
      SplitWhitespaceOfJoin(tokens[1..]);
      assert tokens == [tokens[0]] + tokens[1..];
    }
  }

  // ---------------------------------------------------------------- splitting on a separator

  /** Length of the field that starts `s`, up to the first `sep`. */
  function FieldLength(s: string, sep: char): (n: nat)
    ensures n <= |s| && sep !in s[..n]
    ensures n < |s| ==> s[n] == sep
  {
    if s == [] || s[0] == sep then 0
    else
      var n := 1 + FieldLength(s[1..], sep);
      assert s[..n] == [s[0]] + s[1..][..n - 1];
      n
  }

  /** `split(sep)`: the fields between separators, empty ones included. */
  function SplitOn(s: string, sep: char): (fields: seq<string>)
    ensures |fields| > 0
    decreases |s|
  {
    var n := FieldLength(s, sep);
    if n == |s| then [s] else [s[..n]] + SplitOn(s[n + 1..], sep)
  }

  lemma {:induction false} FieldLengthOfField(a: string, sep: char, rest: string)
    requires sep !in a
    requires rest == [] || rest[0] == sep
    ensures FieldLength(a + rest, sep) == |a|
    decreases |a|
  {
    if a != [] {
      assert (a + rest)[1..] == a[1..] + rest;
      assert a[0] in a;
      FieldLengthOfField(a[1..], sep, rest);
    } else {
      assert a + rest == rest;
    }
  }

  /** A field followed by a separator comes out first, and the rest is split alone. */
  lemma SplitOnField(a: string, sep: char, b: string)
    requires sep !in a
    ensures SplitOn(a + [sep] + b, sep) == [a] + SplitOn(b, sep)
  {
    var s := a + [sep] + b;
    assert s == a + ([sep] + b);
    FieldLengthOfField(a, sep, [sep] + b);
    assert s[..|a|] == a;
    assert s[|a| + 1..] == b;
  }

  /** A string without the separator is one field. */
  lemma SplitOnLast(a: string, sep: char)
    requires sep !in a
    ensures SplitOn(a, sep) == [a]
  {
    FieldLengthOfField(a, sep, []);
    assert a + [] == a;
  }

  /** Joining fields that do not contain the separator and splitting on it
      again gives the fields back. */
  lemma {:induction false} SplitOnOfJoin(parts: seq<string>, sep: char)
    requires |parts| > 0
    requires forall k :: 0 <= k < |parts| ==> sep !in parts[k]
    ensures SplitOn(Join(parts, [sep]), sep) == parts
    decreases |parts|
  {
    if |parts| == 1 {
      SplitOnLast(parts[0], sep);
    } else {
      SplitOnOfJoin(parts[1..], sep);
      SplitOnField(parts[0], sep, Join(parts[1..], [sep]));
      assert [parts[0]] + parts[1..] == parts;
    }
  }

  // ---------------------------------------------------------------- decimal numbers

  predicate AllDigits(s: string) { forall i :: 0 <= i < |s| ==> IsDigit(s[i]) }

  function DigitChar(d: nat): char
    requires d < 10
  {
    ('0' as int + d) as char
  }

  function DigitValue(c: char): nat
    requires IsDigit(c)
  {
    c as int - '0' as int
  }

  /** Decimal digits of `n`, most significant first, without leading zeros. */
  function NatToString(n: nat): (s: string)
    ensures s != [] && AllDigits(s)
    ensures s[0] == '0' ==> n == 0
    decreases n
  {
    if n < 10 then [DigitChar(n)] else NatToString(n / 10) + [DigitChar(n % 10)]
  }

  /** `format!("{}", n)` for an integer: a `-` sign for negatives, then the digits. */
  function IntToString(n: int): (s: string)
    ensures s != [] && NoWhitespace(s) && '\n' !in s
  {
    if n < 0 then "-" + NatToString(-n) else NatToString(n)
  }

  /** The value of a string of decimal digits. */
  function DigitsValue(s: string): nat
    requires AllDigits(s)
    decreases |s|
  {
    if s == [] then 0 else DigitsValue(s[..|s| - 1]) * 10 + DigitValue(s[|s| - 1])
  }

  /** `str::parse::<i32>`: one optional `+` or `-`, then one or more ASCII
      digits, whose value must lie in the 32-bit range. Anything else fails. */
  function ParseInt32(s: string): (r: Option<int32>)
    ensures r.Some? ==> s != [] && NoWhitespace(s)
  {
    if s == [] then None
    else
      var digits := if s[0] == '+' || s[0] == '-' then s[1..] else s;
      if digits == [] || !AllDigits(digits) then None
      else
        var v: int := if s[0] == '-' then -(DigitsValue(digits) as int) else DigitsValue(digits);
        if INT32_MIN <= v <= INT32_MAX then Some(v) else None
  }

  lemma {:induction false} DigitsValueOfNatToString(n: nat)
    ensures DigitsValue(NatToString(n)) == n
    decreases n
  {
    var s := NatToString(n);
    if n >= 10 {
      assert s[..|s| - 1] == NatToString(n / 10);
      DigitsValueOfNatToString(n / 10);
    }
  }

  /** Printing a 32-bit integer and parsing it back gives the integer. */
  lemma ParseOfIntToString(n: int32)
    ensures ParseInt32(IntToString(n)) == Some(n)
  {
    var s := IntToString(n);
    if n < 0 {
      assert s[0] == '-';
      assert s[1..] == NatToString(-(n as int));
      DigitsValueOfNatToString(-(n as int));
    } else {
      DigitsValueOfNatToString(n);
    }
  }

  // ---------------------------------------------------------------- subsequences

  /** `a` is `b` with some elements left out, the rest in their order. */
  ghost predicate IsSubsequence<T>(a: seq<T>, b: seq<T>)
    decreases |b|
  {
    if a == [] then true
    else if b == [] then false
    else if a[0] == b[0] then IsSubsequence(a[1..], b[1..])
    else IsSubsequence(a, b[1..])
  }

  lemma {:induction false} SubsequenceDropFirst<T>(a: seq<T>, b: seq<T>)
    requires a != [] && IsSubsequence(a, b)
    ensures IsSubsequence(a[1..], b)
    decreases |b|, 0
  {
    assert b == [b[0]] + b[1..];
    if a[0] != b[0] {
      SubsequenceDropFirst(a, b[1..]);
      SubsequenceCons(a[1..], b[0], b[1..]);
    } else {
      SubsequenceCons(a[1..], b[0], b[1..]);
    }
  }

  /** Putting an element in front of the longer sequence keeps a subsequence one. */
  lemma {:induction false} SubsequenceCons<T>(a: seq<T>, x: T, b: seq<T>)
    requires IsSubsequence(a, b)
    ensures IsSubsequence(a, [x] + b)
    decreases |b|, 1
  {
    assert ([x] + b)[1..] == b;
    if a != [] && a[0] == x {
      SubsequenceDropFirst(a, b);
    }
  }
}
