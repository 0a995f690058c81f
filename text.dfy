/**
 * The handful of Python string operations the scripts rely on: `str.isspace`,
 * `strip`, `split()` with no separator, `sep.join`, `lower`/`upper` and
 * `str(int)`; and `Count`, the model's own count of one character, used to
 * count placeholders and separators.
 */
module Text {
  import opened Wrappers

  /** The characters for which Python's `str.isspace()` holds; `strip()` and `split()` use exactly this set. */
  predicate IsSpace(c: char)
  {
    || c == ' '
    || '\t' <= c <= '\r'
    || '\U{1C}' <= c <= '\U{1F}'
    || c == '\U{85}' || c == '\U{A0}' || c == '\U{1680}'
    || '\U{2000}' <= c <= '\U{200A}'
    || c == '\U{2028}' || c == '\U{2029}' || c == '\U{202F}' || c == '\U{205F}' || c == '\U{3000}'
  }

  predicate AllSpace(s: string)
  {
    forall k :: 0 <= k < |s| ==> IsSpace(s[k])
  }

  predicate NoSpace(s: string)
  {
    forall k :: 0 <= k < |s| ==> !IsSpace(s[k])
  }

  /** Python truthiness of an optional string: present and non-empty. */
  predicate Truthy(s: Option<string>)
  {
    s.Some? && s.value != ""
  }

  // ---------------------------------------------------------------------------
  // join and count
  // ---------------------------------------------------------------------------

  /** `sep.join(parts)`. */
  function Join(sep: string, parts: seq<string>): string
  {
    if |parts| == 0 then ""
    else if |parts| == 1 then parts[0]
    else parts[0] + sep + Join(sep, parts[1..])
  }

  /** A join starts with its first part. */
  lemma JoinHead(sep: string, parts: seq<string>)
    requires |parts| > 0
    ensures |parts[0]| <= |Join(sep, parts)|
    ensures Join(sep, parts)[..|parts[0]|] == parts[0]
  {
    if |parts| > 1 {
      assert Join(sep, parts) == parts[0] + (sep + Join(sep, parts[1..]));
    }
  }

  /** A join of at least one part, the first of which is non-empty, is itself non-empty. */
  lemma JoinNonEmpty(sep: string, parts: seq<string>)
    requires |parts| > 0 && parts[0] != []
    ensures Join(sep, parts) != []
  {
    JoinHead(sep, parts);
  }

  /** Joining two non-empty lists of parts is joining each and putting the separator between. */
  lemma {:induction false} JoinConcat(sep: string, a: seq<string>, b: seq<string>)
    requires |a| > 0 && |b| > 0
    ensures Join(sep, a + b) == Join(sep, a) + sep + Join(sep, b)
  {
    if |a| == 1 {
      assert (a + b)[1..] == b;
    } else {
      assert (a + b)[1..] == a[1..] + b;
      JoinConcat(sep, a[1..], b);
    }
  }

  /** A join of at least two parts starts with the first two and the separator between them. */
  lemma JoinTwoHead(sep: string, a: string, b: string, rest: seq<string>)
    ensures |a + sep + b| <= |Join(sep, [a, b] + rest)|
    ensures Join(sep, [a, b] + rest)[..|a + sep + b|] == a + sep + b
  {
    var tail := [b] + rest;
    assert ([a, b] + rest)[1..] == tail;
    JoinHead(sep, tail);
    var t := Join(sep, tail);
    assert Join(sep, [a, b] + rest) == (a + sep) + t;
    assert t == b + t[|b|..];
    assert (a + sep) + t == (a + sep + b) + t[|b|..];
  }

  /** `pattern` occurs in `text` at index `i`. */
  predicate OccursAt(text: string, pattern: string, i: int)
  {
    0 <= i <= |text| - |pattern| && text[i..i + |pattern|] == pattern
  }

  /** In a join, the separator followed by a part occurs right after the join of the parts before it. */
  lemma JoinSeparatorOccurs(sep: string, a: seq<string>, b: seq<string>)
    requires |a| > 0 && |b| > 0
    ensures OccursAt(Join(sep, a + b), sep + b[0], |Join(sep, a)|)
  {
    JoinConcat(sep, a, b);
    JoinHead(sep, b);
    OccursBeforeTail(Join(sep, a), sep, Join(sep, b), b[0]);
  }

  /** A pattern occurs in a concatenation right after what precedes it. */
  lemma OccursAfter(x: string, pattern: string, y: string)
    ensures OccursAt(x + pattern + y, pattern, |x|)
  {
    assert (x + pattern + y)[|x|..|x| + |pattern|] == pattern;
  }

  /** Where a pattern occurs, so does each of its prefixes. */
  lemma OccursPrefix(text: string, pattern: string, i: int, prefix: string)
    requires OccursAt(text, pattern, i)
    requires |prefix| <= |pattern| && pattern[..|prefix|] == prefix
    ensures OccursAt(text, prefix, i)
  {
    assert text[i..i + |prefix|] == text[i..i + |pattern|][..|prefix|];
  }

  /** In `x + sep + t`, where `t` starts with `p`, the text `sep + p` occurs right after `x`. */
  lemma OccursBeforeTail(x: string, sep: string, t: string, p: string)
    requires |p| <= |t| && t[..|p|] == p
    ensures OccursAt(x + sep + t, sep + p, |x|)
  {
    assert (x + sep + t)[|x|..|x| + |sep + p|] == sep + t[..|p|];
  }

  /** `s.count(c)` for a single character `c`. */
  function Count(c: char, s: string): (n: nat)
    ensures n <= |s|
    ensures n == 0 <==> c !in s
  {
    if s == [] then 0 else (if s[0] == c then 1 else 0) + Count(c, s[1..])
  }

  /** A string holding `c` once, between two stretches free of it, counts one `c`. */
  lemma CountOnce(c: char, a: string, b: string)
    requires c !in a && c !in b
    ensures Count(c, a + [c] + b) == 1
  {
    CountConcat(c, a + [c], b);
    CountConcat(c, a, [c]);
  }

  /** Occurrences of `c` in each of `parts`, added up. */
  function SumCount(c: char, parts: seq<string>): nat
  {
    if parts == [] then 0 else Count(c, parts[0]) + SumCount(c, parts[1..])
  }

  lemma {:induction false} CountConcat(c: char, a: string, b: string)
    ensures Count(c, a + b) == Count(c, a) + Count(c, b)
  {
    if a == [] {
      assert a + b == b;
    } else {
      assert (a + b)[1..] == a[1..] + b;
      CountConcat(c, a[1..], b);
    }
  }

  lemma {:induction false} SumCountConcat(c: char, a: seq<string>, b: seq<string>)
    ensures SumCount(c, a + b) == SumCount(c, a) + SumCount(c, b)
  {
    if a == [] {
      assert a + b == b;
    } else {
      assert (a + b)[1..] == a[1..] + b;
      SumCountConcat(c, a[1..], b);
    }
  }

  /** A separator that does not contain `c` adds no occurrence of `c` to a join. */
  lemma {:induction false} CountJoinFreeSep(c: char, sep: string, parts: seq<string>)
    requires Count(c, sep) == 0
    ensures Count(c, Join(sep, parts)) == SumCount(c, parts)
  {
    if |parts| == 0 {
    } else if |parts| == 1 {
      assert SumCount(c, parts) == Count(c, parts[0]) + SumCount(c, parts[1..]);
    } else {
      CountConcat(c, parts[0] + sep, Join(sep, parts[1..]));
      CountConcat(c, parts[0], sep);
      CountJoinFreeSep(c, sep, parts[1..]);
    }
  }

  /** Joining n > 0 parts with the one-character separator `c` adds n - 1 occurrences of `c`. */
  lemma {:induction false} CountJoinCharSep(c: char, parts: seq<string>)
    requires |parts| > 0
    ensures Count(c, Join([c], parts)) == SumCount(c, parts) + |parts| - 1
  {
    if |parts| == 1 {
      assert SumCount(c, parts) == Count(c, parts[0]) + SumCount(c, parts[1..]);
    } else {
      CountConcat(c, parts[0] + [c], Join([c], parts[1..]));
      CountConcat(c, parts[0], [c]);
      CountJoinCharSep(c, parts[1..]);
    }
  }

  // ---------------------------------------------------------------------------
  // strip, split, and the whitespace collapse " ".join(s.strip().split())
  // ---------------------------------------------------------------------------

  /** Number of whitespace characters `s` starts with. */
  function LeadingSpace(s: string): (n: nat)
    ensures n <= |s| && AllSpace(s[..n])
    ensures n < |s| ==> !IsSpace(s[n])
  {
    if s != [] && IsSpace(s[0]) then
      var m := LeadingSpace(s[1..]);
      assert forall k :: 1 <= k < 1 + m ==> s[k] == s[1..][..m][k - 1];
      1 + m
    else 0
  }

  /** Length of what is left of `s` once its trailing whitespace is dropped. */
  function TrimmedLength(s: string): (n: nat)
    ensures n <= |s| && AllSpace(s[n..])
    ensures n > 0 ==> !IsSpace(s[n - 1])
  {
    if s != [] && IsSpace(s[|s| - 1]) then
      var m := TrimmedLength(s[..|s| - 1]);
      assert forall k :: m <= k < |s| - 1 ==> s[k] == s[..|s| - 1][m..][k - m];
      m
    else |s|
  }

  /** `s.strip()`: `s` without its leading and trailing whitespace. */
  function Strip(s: string): (r: string)
    ensures r == [] || (!IsSpace(r[0]) && !IsSpace(r[|r| - 1]))
    ensures exists i :: 0 <= i <= |s| - |r| && s[i..i + |r|] == r && AllSpace(s[..i]) && AllSpace(s[i + |r|..])
  {
    var i := LeadingSpace(s);
    var t := s[i..];
    var n := TrimmedLength(t);
    assert s[i..i + n] == t[..n];
    assert s[i + n..] == t[n..];
    t[..n]
  }

  /** Stripping a string that neither starts nor ends with whitespace changes nothing. */
  lemma StripTrimmed(s: string)
    requires s == [] || (!IsSpace(s[0]) && !IsSpace(s[|s| - 1]))
    ensures Strip(s) == s
  {
    var i := LeadingSpace(s);
    var n := TrimmedLength(s);
  }

  /** Length of the run of non-whitespace characters `s` starts with. */
  function WordLength(s: string): (n: nat)
    ensures n <= |s| && NoSpace(s[..n])
    ensures n < |s| ==> IsSpace(s[n])
  {
    if s != [] && !IsSpace(s[0]) then
      var m := WordLength(s[1..]);
      assert forall k :: 1 <= k < 1 + m ==> s[k] == s[1..][..m][k - 1];
      1 + m
    else 0
  }

  /** `s.split()`: the maximal runs of non-whitespace characters of `s`, in order. */
  function Words(s: string): (ws: seq<string>)
    ensures forall k :: 0 <= k < |ws| ==> ws[k] != [] && NoSpace(ws[k])
    decreases |s|
  {
    if s == [] then []
    else if IsSpace(s[0]) then Words(s[1..])
    else
      var n := WordLength(s);
      [s[..n]] + Words(s[n..])
  }

  /** `" ".join(s.strip().split())`: the description clean-up of the tool prompt. */
  function Collapse(s: string): string
  {
    Join(" ", Words(Strip(s)))
  }

  /** Every whitespace character is a plain space standing between two non-whitespace characters. */
  predicate SingleSpaced(r: string)
  {
    forall k :: 0 <= k < |r| && IsSpace(r[k]) ==>
      r[k] == ' ' && 0 < k < |r| - 1 && !IsSpace(r[k - 1]) && !IsSpace(r[k + 1])
  }

  predicate IsWordList(ws: seq<string>)
  {
    forall k :: 0 <= k < |ws| ==> ws[k] != [] && NoSpace(ws[k])
  }

  lemma {:induction false} WordLengthOfWord(w: string, rest: string)
    requires NoSpace(w)
    requires rest == [] || IsSpace(rest[0])
    ensures WordLength(w + rest) == |w|
  {
    if w == [] {
      assert w + rest == rest;
    } else {
      assert (w + rest)[0] == w[0];
      assert (w + rest)[1..] == w[1..] + rest;
      WordLengthOfWord(w[1..], rest);
    }
  }

  /** Splitting words joined by single spaces gives the words back. */
  lemma {:induction false} WordsOfJoin(ws: seq<string>)
    requires IsWordList(ws)
    ensures Words(Join(" ", ws)) == ws
  {
    if |ws| == 1 {
      var w := ws[0];
      WordLengthOfWord(w, []);
      assert w + [] == w;
      assert w[..|w|] == w && w[|w|..] == [];
    } else if |ws| > 1 {
      var w := ws[0];
      var j := Join(" ", ws[1..]);
      var s := w + (" " + j);
      assert Join(" ", ws) == s;
      WordLengthOfWord(w, " " + j);
      assert s[..|w|] == w;
      assert s[|w|..] == " " + j;
      assert (" " + j)[1..] == j;
      WordsOfJoin(ws[1..]);
    }
  }

  /** Words joined by single spaces never hold a whitespace run, nor whitespace at either end. */
  lemma {:induction false} JoinSingleSpaced(ws: seq<string>)
    requires IsWordList(ws)
    ensures SingleSpaced(Join(" ", ws))
  {
    if |ws| > 1 {
      var w := ws[0];
      var j := Join(" ", ws[1..]);
      JoinSingleSpaced(ws[1..]);
      JoinHead(" ", ws[1..]);
      assert j[0] == ws[1][0];
      var r := w + " " + j;
      assert Join(" ", ws) == r;
      forall k | 0 <= k < |r| && IsSpace(r[k])
        ensures r[k] == ' ' && 0 < k < |r| - 1 && !IsSpace(r[k - 1]) && !IsSpace(r[k + 1])
      {
        if k > |w| {
          assert r[k] == j[k - |w| - 1];
          assert r[k - 1] == j[k - |w| - 2];
          assert r[k + 1] == j[k - |w|];
        } else if k == |w| {
          assert r[k - 1] == w[|w| - 1];
          assert r[k + 1] == j[0];
        }
      }
    }
  }

  /**
   * The collapse keeps exactly the words of the stripped text, separates them by
   * single spaces, leaves no whitespace at either end, and is idempotent.
   */
  lemma CollapseSpec(s: string)
    ensures Words(Collapse(s)) == Words(Strip(s))
    ensures SingleSpaced(Collapse(s))
    ensures Collapse(s) == [] <==> Words(Strip(s)) == []
    ensures Collapse(Collapse(s)) == Collapse(s)
  {
    var ws := Words(Strip(s));
    var r := Join(" ", ws);
    WordsOfJoin(ws);
    JoinSingleSpaced(ws);
    if ws != [] {
      JoinNonEmpty(" ", ws);
    }
    if r != [] {
      assert !IsSpace(r[0]) && !IsSpace(r[|r| - 1]);
    }
    StripTrimmed(r);
  }

  // ---------------------------------------------------------------------------
  // lower, upper (ASCII letters)
  // ---------------------------------------------------------------------------

  function LowerChar(c: char): char
  {
    if 'A' <= c <= 'Z' then (c as int + 32) as char else c
  }

  function UpperChar(c: char): char
  {
    if 'a' <= c <= 'z' then (c as int - 32) as char else c
  }

  /** `s.lower()` over ASCII letters. */
  function Lower(s: string): (r: string)
    ensures |r| == |s|
  {
    if s == [] then [] else [LowerChar(s[0])] + Lower(s[1..])
  }

  /** `s.upper()` over ASCII letters. */
  function Upper(s: string): (r: string)
    ensures |r| == |s|
  {
    if s == [] then [] else [UpperChar(s[0])] + Upper(s[1..])
  }

  // ---------------------------------------------------------------------------
  // str(int) and its inverse
  // ---------------------------------------------------------------------------

  predicate IsDigit(c: char)
  {
    '0' <= c <= '9'
  }

  predicate AllDigits(s: string)
  {
    forall k :: 0 <= k < |s| ==> IsDigit(s[k])
  }

  function DigitChar(d: nat): (c: char)
    requires d < 10
    ensures IsDigit(c) && c as int - '0' as int == d
  {
    ('0' as int + d) as char
  }

  /** Decimal digits of `n`, most significant first, without leading zeros. */
  function NatToString(n: nat): (r: string)
    ensures r != [] && AllDigits(r)
    ensures |r| > 1 ==> r[0] != '0'
  {
    if n < 10 then [DigitChar(n)] else NatToString(n / 10) + [DigitChar(n % 10)]
  }

  /** Python's `str(i)` (and `f"{i}"`) for an int. */
  function IntToString(i: int): (r: string)
    ensures r != []
    ensures forall k :: 0 <= k < |r| ==> IsDigit(r[k]) || (k == 0 && r[k] == '-')
  {
    if i < 0 then "-" + NatToString(-i) else NatToString(i)
  }

  /** The number a string of decimal digits denotes. */
  function DecimalValue(s: string): nat
    requires AllDigits(s)
  {
    if s == [] then 0 else DecimalValue(s[..|s| - 1]) * 10 + (s[|s| - 1] as int - '0' as int)
  }

  /** Reads an optional minus sign followed by one or more decimal digits. */
  function ReadInt(s: string): Option<int>
  {
    if |s| > 1 && s[0] == '-' && AllDigits(s[1..]) then Some(-(DecimalValue(s[1..]) as int))
    else if s != [] && AllDigits(s) then Some(DecimalValue(s))
    else None
  }

  lemma {:induction false} NatToStringValue(n: nat)
    ensures DecimalValue(NatToString(n)) == n
  {
    if n >= 10 {
      var r := NatToString(n);
      assert r[..|r| - 1] == NatToString(n / 10);
      NatToStringValue(n / 10);
    }
  }

  /** The decimal rendering of an int reads back as that int. */
  lemma IntToStringValue(i: int)
    ensures ReadInt(IntToString(i)) == Some(i)
  {
    if i < 0 {
      NatToStringValue(-i);
      assert IntToString(i)[1..] == NatToString(-i);
    } else {
      NatToStringValue(i);
    }
  }

  /** A character that is neither a digit nor '-' never occurs in a rendered int. */
  lemma CountIntToString(c: char, i: int)
    requires !IsDigit(c) && c != '-'
    ensures Count(c, IntToString(i)) == 0
  {
  }
}
