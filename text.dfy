/**
 * JavaScript string and array primitives that the modelled TypeScript relies on,
 * written out so that their edge cases (negative slice indices, split producing
 * a trailing empty piece, trim) are part of the model rather than assumed.
 */
module Text {

  datatype Option<T> = None | Some(value: T)

  /** Resolves a relative index the way Array.prototype.slice does: negative counts from the end. */
  function RelativeIndex(i: int, len: nat): (k: nat)
    ensures k <= len
    ensures i >= 0 ==> k == if i <= len then i else len
    ensures i < 0 ==> k == if len + i >= 0 then len + i else 0
  {
    if i < 0 then (if len + i >= 0 then len + i else 0)
    else if i <= len then i else len
  }

  /** `s.slice(start, end)` for arrays and strings. */
  function Slice<T>(s: seq<T>, start: int, end: int): (r: seq<T>)
    ensures |r| <= |s|
    ensures var a := RelativeIndex(start, |s|); var b := RelativeIndex(end, |s|);
      r == if a < b then s[a..b] else []
  {
    var a := RelativeIndex(start, |s|);
    var b := RelativeIndex(end, |s|);
    if a < b then s[a..b] else []
  }

  /** `s.slice(-n)`: the last n elements for 0 < n <= |s|; note that `-0` is 0, so n == 0 keeps everything. */
  function LastN<T>(s: seq<T>, n: int): seq<T>
  {
    Slice(s, -n, |s|)
  }

  lemma LastNShape<T>(s: seq<T>, n: int)
    ensures 0 < n <= |s| ==> LastN(s, n) == s[|s| - n..]
    ensures (n == 0 || n >= |s|) ==> LastN(s, n) == s
    ensures n >= 0 ==> |LastN(s, n)| <= n || n == 0
  {
  }

  /** `parts.join(sep)`. */
  function Join(parts: seq<string>, sep: string): string
  {
    if |parts| == 0 then ""
    else if |parts| == 1 then parts[0]
    else parts[0] + sep + Join(parts[1..], sep)
  }

  lemma {:induction false} JoinAppend(a: seq<string>, b: seq<string>, sep: string)
    requires |a| > 0 && |b| > 0
    ensures Join(a + b, sep) == Join(a, sep) + sep + Join(b, sep)
  {
    if |a| == 1 {
      assert (a + b)[1..] == b;
    } else {
      assert (a + b)[1..] == a[1..] + b;
      JoinAppend(a[1..], b, sep);
    }
  }

  /** `s.includes(c)` for a one-character needle. */
  predicate HasChar(s: string, c: char)
  {
    c in s
  }

  /** `s.includes(sub)`. */
  predicate Contains(s: string, sub: string)
  {
    exists i :: 0 <= i <= |s| - |sub| && OccursAt(s, sub, i)
  }

  predicate OccursAt(s: string, sub: string, i: int)
  {
    0 <= i <= |s| - |sub| && s[i..i + |sub|] == sub
  }

  /** A string occurs in any text built around it. */
  lemma ContainsInfix(a: string, b: string, c: string)
    ensures Contains(a + b + c, b)
  {
    assert (a + b + c)[|a|..|a| + |b|] == b;
    assert OccursAt(a + b + c, b, |a|);
  }

  predicate StartsWith(s: string, prefix: string)
  {
    |prefix| <= |s| && s[..|prefix|] == prefix
  }

  /**
   * The characters JavaScript's trim() and the `\s` class treat as white space:
   * the ECMAScript WhiteSpace and LineTerminator characters, with the Unicode
   * space separators (category Zs) listed out.
   */
  predicate IsSpace(c: char)
  {
    c == ' ' || c == '\t' || c == '\n' || c == '\r' || c == '\U{000B}' || c == '\U{000C}'
    || c == '\U{00A0}' || c == '\U{1680}' || ('\U{2000}' <= c <= '\U{200A}')
    || c == '\U{2028}' || c == '\U{2029}' || c == '\U{202F}' || c == '\U{205F}'
    || c == '\U{3000}' || c == '\U{FEFF}'
  }

  /** Length of the run of white space starting at `i` (what a greedy `\s*` consumes). */
  function SpaceRun(s: string, i: nat): (n: nat)
    ensures i + n <= |s| || n == 0
    ensures forall k :: i <= k < i + n ==> IsSpace(s[k])
    ensures i + n < |s| ==> !IsSpace(s[i + n])
    decreases |s| - i
  {
    if i < |s| && IsSpace(s[i]) then 1 + SpaceRun(s, i + 1) else 0
  }

  /** The text without its leading white space. */
  function TrimStart(s: string): (r: string)
    ensures |r| <= |s| && r == s[|s| - |r|..]
    ensures forall k :: 0 <= k < |s| - |r| ==> IsSpace(s[k])
    ensures r == [] || !IsSpace(r[0])
  {
    if |s| > 0 && IsSpace(s[0]) then
      var r := TrimStart(s[1..]);
      assert forall k :: 1 <= k < |s| - |r| ==> s[k] == s[1..][k - 1];
      r
    else s
  }

  /** The text without its trailing white space. */
  function TrimEnd(s: string): (r: string)
    ensures |r| <= |s| && r == s[..|r|]
    ensures forall k :: |r| <= k < |s| ==> IsSpace(s[k])
    ensures r == [] || !IsSpace(r[|r| - 1])
  {
    if |s| > 0 && IsSpace(s[|s| - 1]) then
      var r := TrimEnd(s[..|s| - 1]);
      assert forall k :: |r| <= k < |s| - 1 ==> s[k] == s[..|s| - 1][k];
      r
    else s
  }

  /** `s.trim()`: the middle of the text, with only white space cut off either end. */
  function Trim(s: string): (r: string)
    ensures |r| <= |s|
    ensures exists a :: CutFrom(s, r, a)
    ensures r == [] || (!IsSpace(r[0]) && !IsSpace(r[|r| - 1]))
  {
    var t := TrimStart(s);
    var r := TrimEnd(t);
    var a := |s| - |t|;
    assert r == s[a..a + |r|];
    assert forall k :: a + |r| <= k < |s| ==> s[k] == t[k - a];
    assert CutFrom(s, r, a);
    r
  }

  /** `r` is the part of `s` from `a` on, with only white space before and after it. */
  predicate CutFrom(s: string, r: string, a: int)
  {
    0 <= a && a + |r| <= |s| && r == s[a..a + |r|]
    && (forall k :: 0 <= k < a ==> IsSpace(s[k]))
    && (forall k :: a + |r| <= k < |s| ==> IsSpace(s[k]))
  }

  /** `s.split(sep)` for a one-character separator: always at least one piece. */
  function Split(s: string, sep: char): (r: seq<string>)
    ensures |r| >= 1
    ensures forall k :: 0 <= k < |r| ==> sep !in r[k]
  {
    if s == [] then [""]
    else
      var rest := Split(s[1..], sep);
      if s[0] == sep then [""] + rest
      else [[s[0]] + rest[0]] + rest[1..]
  }

  /** Splitting and re-joining with the same separator gives the text back. */
  lemma {:induction false} SplitJoin(s: string, sep: char)
    ensures Join(Split(s, sep), [sep]) == s
  {
    if s != [] {
      var rest := Split(s[1..], sep);
      SplitJoin(s[1..], sep);
      if s[0] == sep {
        JoinAppend([""], rest, [sep]);
        assert [""] + rest == Split(s, sep);
      } else {
        var r := Split(s, sep);
        assert r[0] == [s[0]] + rest[0];
        if |rest| == 1 {
          assert r == [[s[0]] + rest[0]];
        } else {
          assert r[1..] == rest[1..];
          assert Join(rest, [sep]) == rest[0] + [sep] + Join(rest[1..], [sep]);
        }
      }
    }
  }

  /**
   * Splitting a concatenation: every complete piece of the first part is kept, and
   * its unfinished last piece continues into the second part. This is what makes a
   * buffer that keeps the trailing partial line equivalent to splitting the whole text.
   */
  lemma {:induction false} SplitAppend(x: string, y: string, sep: char)
    ensures var sx := Split(x, sep);
      Split(x + y, sep) == sx[..|sx| - 1] + Split(sx[|sx| - 1] + y, sep)
  {
    if x != [] {
      assert (x + y)[1..] == x[1..] + y;
      SplitAppend(x[1..], y, sep);
      if x[0] == sep {
        SplitAppendAtSeparator(x, y, sep);
      } else if |Split(x[1..], sep)| == 1 {
        SplitAppendOnePiece(x, y, sep);
      } else {
        SplitAppendPieces(x, y, sep);
      }
    }
  }

  /** The inductive step of `SplitAppend` when the text starts with the separator. */
  lemma SplitAppendAtSeparator(x: string, y: string, sep: char)
    requires x != [] && x[0] == sep
    requires var rest := Split(x[1..], sep); Split(x[1..] + y, sep) == rest[..|rest| - 1] + Split(rest[|rest| - 1] + y, sep)
    ensures var sx := Split(x, sep); Split(x + y, sep) == sx[..|sx| - 1] + Split(sx[|sx| - 1] + y, sep)
  {
    var rest := Split(x[1..], sep);
    ConsAppend(x, y);
    SplitLeadingSeparator(x[1..] + y, sep);
    SplitLeadingSeparator(x[1..], sep);
    assert Split(x + y, sep) == [""] + Split(x[1..] + y, sep);
    assert Split(x, sep) == [""] + rest;
    DropLastCons("", rest);
  }

  /** The inductive step of `SplitAppend` when the text holds no separator after its first character. */
  lemma SplitAppendOnePiece(x: string, y: string, sep: char)
    requires x != [] && x[0] != sep && |Split(x[1..], sep)| == 1
    requires var rest := Split(x[1..], sep); Split(x[1..] + y, sep) == rest[..|rest| - 1] + Split(rest[|rest| - 1] + y, sep)
    ensures var sx := Split(x, sep); Split(x + y, sep) == sx[..|sx| - 1] + Split(sx[|sx| - 1] + y, sep)
  {
    var rest := Split(x[1..], sep);
    ConsAppend(x, y);
    SplitCons(x[0], x[1..] + y, sep);
    SplitCons(x[0], x[1..], sep);
    SplitCons(x[0], rest[0] + y, sep);
    ConsAppend([x[0]] + rest[0], y);
  }

  /** The inductive step of `SplitAppend` when a separator follows the first character. */
  lemma SplitAppendPieces(x: string, y: string, sep: char)
    requires x != [] && x[0] != sep && |Split(x[1..], sep)| > 1
    requires var rest := Split(x[1..], sep); Split(x[1..] + y, sep) == rest[..|rest| - 1] + Split(rest[|rest| - 1] + y, sep)
    ensures var sx := Split(x, sep); Split(x + y, sep) == sx[..|sx| - 1] + Split(sx[|sx| - 1] + y, sep)
  {
    var rest := Split(x[1..], sep);
    var t := Split(rest[|rest| - 1] + y, sep);
    ConsAppend(x, y);
    SplitCons(x[0], x[1..] + y, sep);
    SplitCons(x[0], x[1..], sep);
    HeadTailAppend(rest[..|rest| - 1], t);
    DropLastCons([x[0]] + rest[0], rest[1..]);
    assert rest[1..][..|rest[1..]| - 1] == rest[1..|rest| - 1];
  }

  /** A non-empty sequence is its head followed by its tail, also under concatenation. */
  lemma ConsAppend<T>(x: seq<T>, y: seq<T>)
    requires x != []
    ensures x == [x[0]] + x[1..] && x + y == [x[0]] + (x[1..] + y) && (x + y)[1..] == x[1..] + y
  {
  }

  /** Dropping the last element of a sequence with a new head. */
  lemma DropLastCons<T>(h: T, s: seq<T>)
    requires s != []
    ensures ([h] + s)[..|s|] == [h] + s[..|s| - 1] && ([h] + s)[|s|] == s[|s| - 1] && |[h] + s| == |s| + 1
  {
  }

  /** Head and tail of a concatenation whose first part is not empty. */
  lemma HeadTailAppend<T>(a: seq<T>, b: seq<T>)
    requires a != []
    ensures (a + b)[0] == a[0] && (a + b)[1..] == a[1..] + b
  {
  }

  /** A leading separator closes an empty first piece. */
  lemma SplitLeadingSeparator(s: string, sep: char)
    ensures Split([sep] + s, sep) == [""] + Split(s, sep)
  {
    assert ([sep] + s)[1..] == s;
  }

  /** A leading character that is not the separator joins the first piece. */
  lemma SplitCons(c: char, s: string, sep: char)
    requires c != sep
    ensures var r := Split(s, sep); Split([c] + s, sep) == [[c] + r[0]] + r[1..]
  {
    assert ([c] + s)[1..] == s;
  }

  /** Text without the separator splits into itself alone. */
  lemma {:induction false} SplitNoSeparator(s: string, sep: char)
    requires sep !in s
    ensures Split(s, sep) == [s]
  {
    if s != [] {
      SplitNoSeparator(s[1..], sep);
      assert s == [s[0]] + s[1..];
    }
  }

  /** Decimal digits of a natural number, as String(n) writes them. */
  function NatToString(n: nat): (r: string)
    ensures |r| >= 1
    ensures forall k :: 0 <= k < |r| ==> '0' <= r[k] <= '9'
    ensures DecimalValue(r) == n
    ensures r[0] == '0' ==> n == 0
  {
    if n < 10 then [DigitChar(n)]
    else
      var r := NatToString(n / 10) + [DigitChar(n % 10)];
      assert r[..|r| - 1] == NatToString(n / 10);
      r
  }

  function DigitChar(d: nat): (c: char)
    requires d < 10
    ensures '0' <= c <= '9' && c as int - '0' as int == d
  {
    ('0' as int + d) as char
  }

  /** The number a string of decimal digits spells, most significant digit first. */
  function DecimalValue(s: string): nat
    requires forall k :: 0 <= k < |s| ==> '0' <= s[k] <= '9'
  {
    if s == [] then 0 else 10 * DecimalValue(s[..|s| - 1]) + (s[|s| - 1] as int - '0' as int)
  }

  /** `${n}` for an integer. */
  function IntToString(n: int): (r: string)
    ensures |r| >= 1
  {
    if n < 0 then "-" + NatToString(-n) else NatToString(n)
  }

  /** Number of elements of `s` satisfying `p` (JavaScript `filter(p).length`). */
  function Count<T>(s: seq<T>, p: T -> bool): (n: nat)
    ensures n <= |s|
  {
    if s == [] then 0 else Count(s[..|s| - 1], p) + (if p(s[|s| - 1]) then 1 else 0)
  }

  /** `s.filter(p)`, order preserved. */
  function Filter<T>(s: seq<T>, p: T -> bool): (r: seq<T>)
    ensures |r| == Count(s, p)
    ensures forall k :: 0 <= k < |r| ==> p(r[k])
    ensures multiset(r) <= multiset(s)
  {
    if s == [] then []
    else
      var init := Filter(s[..|s| - 1], p);
      assert s == s[..|s| - 1] + [s[|s| - 1]];
      if p(s[|s| - 1]) then init + [s[|s| - 1]] else init
  }

  /** Filtering distributes over concatenation, so the filter keeps the input's order. */
  lemma {:induction false} FilterAppend<T>(a: seq<T>, b: seq<T>, p: T -> bool)
    ensures Filter(a + b, p) == Filter(a, p) + Filter(b, p)
  {
    if b != [] {
      assert (a + b)[..|a + b| - 1] == a + b[..|b| - 1];
      FilterAppend(a, b[..|b| - 1], p);
    } else {
      assert a + b == a;
    }
  }

  /** Every element that satisfies `p` survives the filter. */
  lemma {:induction false} FilterKeeps<T>(s: seq<T>, p: T -> bool, x: T)
    requires x in s && p(x)
    ensures x in Filter(s, p)
  {
    var init := s[..|s| - 1];
    if x == s[|s| - 1] {
    } else {
      assert s == init + [s[|s| - 1]];
      FilterKeeps(init, p, x);
    }
  }
}
