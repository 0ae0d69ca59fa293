// Shared vocabulary for the whole model: optional values, the handful of
// JavaScript string operations the dashboard relies on (ASCII and Latin-1 case mapping,
// trim, includes, split/join, first-occurrence and global replacement), and a
// stable sort by an integer key, which is what `Array.prototype.sort` does
// with a numeric comparator.
module Common {

  datatype Option<T> = None | Some(value: T)

  /** An operation that either yields a value or fails with a message (an exception in the source). */
  datatype Result<T> = Ok(value: T) | Err(error: string)

  /** A parsed JSON value, as JavaScript sees it after `JSON.parse`. */
  datatype Json = JNull | JBool(b: bool) | JNum(n: real) | JStr(s: string) | JArr(items: seq<Json>) | JObj(fields: map<string, Json>)

  /** JavaScript truthiness; an absent property (`undefined`) is `None` and falsy. */
  predicate Truthy(v: Option<Json>)
  {
    match v
    case None => false
    case Some(JNull) => false
    case Some(JBool(b)) => b
    case Some(JNum(n)) => n != 0.0
    case Some(JStr(s)) => s != ""
    case Some(_) => true
  }

  /** `v?.key`: the property of an object, `undefined` for anything else or a missing key. */
  function Field(v: Json, key: string): (r: Option<Json>)
    ensures r.Some? <==> v.JObj? && key in v.fields
  {
    if v.JObj? && key in v.fields then Some(v.fields[key]) else None
  }

  /** An optional text that is given and not empty: truthy in both JavaScript and Python. */
  predicate Given(p: Option<string>)
  {
    p.Some? && p.value != ""
  }

  /** An optional number that is given and not zero: truthy in JavaScript. */
  predicate NonZero(v: Option<int>)
  {
    v.Some? && v.value != 0
  }

  function GetOr<T>(o: Option<T>, d: T): T
  {
    match o
    case Some(v) => v
    case None => d
  }

  // ---------------------------------------------------------------------
  // Characters and case mapping (ASCII and Latin-1)
  // ---------------------------------------------------------------------

  predicate IsUpperAscii(c: char) { 'A' <= c <= 'Z' }
  predicate IsLowerAscii(c: char) { 'a' <= c <= 'z' }
  predicate IsDigit(c: char) { '0' <= c <= '9' }

  /** The capitals `toLowerCase` maps within Latin-1: A–Z, À–Þ except ×, and Ÿ (whose small form is ÿ). */
  predicate IsUpperLetter(c: char)
  {
    IsUpperAscii(c) || ('\U{00C0}' <= c <= '\U{00DE}' && c != '\U{00D7}') || c == '\U{0178}'
  }

  /** The small letters `toUpperCase` maps one to one: a–z, à–þ except ÷, and ÿ. */
  predicate IsLowerLetter(c: char)
  {
    IsLowerAscii(c) || ('\U{00E0}' <= c <= '\U{00FE}' && c != '\U{00F7}') || c == '\U{00FF}'
  }

  /** `toLowerCase` of one character: a capital becomes its small letter, anything else is kept. */
  function LowerChar(c: char): (r: char)
    ensures IsUpperLetter(c) ==> IsLowerLetter(r) && UpperChar(r) == c
    ensures !IsUpperLetter(c) ==> r == c
    ensures !IsUpperLetter(r)
  {
    if c == '\U{0178}' then '\U{00FF}'
    else if IsUpperLetter(c) then (c as int + 32) as char
    else c
  }

  /** `toUpperCase` of one character: a small letter becomes its capital, anything else is kept. */
  function UpperChar(c: char): (r: char)
    ensures IsLowerLetter(c) ==> IsUpperLetter(r)
    ensures !IsLowerLetter(c) ==> r == c
    ensures !IsLowerLetter(r)
  {
    if c == '\U{00FF}' then '\U{0178}'
    else if IsLowerLetter(c) then (c as int - 32) as char
    else c
  }

  /** Upper-casing a small letter and lower-casing the result gives the letter back. */
  lemma LowerOfUpperChar(c: char)
    requires IsLowerLetter(c)
    ensures LowerChar(UpperChar(c)) == c
  {
  }

  /** `toLowerCase` on ASCII and Latin-1 letters. */
  function Lower(s: string): (r: string)
    ensures |r| == |s|
    ensures forall i :: 0 <= i < |s| ==> r[i] == LowerChar(s[i])
  {
    if s == [] then [] else [LowerChar(s[0])] + Lower(s[1..])
  }

  /** `toUpperCase` on ASCII and Latin-1 letters. */
  function Upper(s: string): (r: string)
    ensures |r| == |s|
    ensures forall i :: 0 <= i < |s| ==> r[i] == UpperChar(s[i])
  {
    if s == [] then [] else [UpperChar(s[0])] + Upper(s[1..])
  }

  lemma LowerIdempotent(s: string)
    ensures Lower(Lower(s)) == Lower(s)
  {
    assert forall i :: 0 <= i < |s| ==> LowerChar(LowerChar(s[i])) == LowerChar(s[i]);
  }

  lemma LowerAppend(a: string, b: string)
    ensures Lower(a + b) == Lower(a) + Lower(b)
  {
    forall i | 0 <= i < |a + b| ensures Lower(a + b)[i] == (Lower(a) + Lower(b))[i] {
      if i < |a| {
        assert (a + b)[i] == a[i];
      } else {
        assert (a + b)[i] == b[i - |a|];
      }
    }
  }

  /** Lower-casing forgets an earlier upper-casing. */
  lemma LowerUpper(s: string)
    ensures Lower(Upper(s)) == Lower(s)
  {
    forall i | 0 <= i < |s| ensures Lower(Upper(s))[i] == Lower(s)[i] {
      if IsLowerLetter(s[i]) {
        LowerOfUpperChar(s[i]);
      }
    }
  }

  // ---------------------------------------------------------------------
  // Whitespace and trim
  // ---------------------------------------------------------------------

  /**
   * The characters `String.prototype.trim` removes and the regular-expression
   * class `\s` matches: the ECMAScript white space (tab, vertical tab, form
   * feed, the byte order mark and the Unicode space separators) and the line
   * terminators.
   */
  predicate IsSpace(c: char)
  {
    || c == '\t' || c == '\U{0B}' || c == '\U{0C}' || c == '\U{FEFF}'
    || c == ' ' || c == '\U{00A0}' || c == '\U{1680}' || ('\U{2000}' <= c <= '\U{200A}')
    || c == '\U{202F}' || c == '\U{205F}' || c == '\U{3000}'
    || c == '\n' || c == '\r' || c == '\U{2028}' || c == '\U{2029}'
  }

  predicate IsBlank(s: string)
  {
    forall i :: 0 <= i < |s| ==> IsSpace(s[i])
  }

  function TrimStart(s: string): (r: string)
    ensures |r| <= |s| && r == s[|s| - |r|..]
    ensures r == [] || !IsSpace(r[0])
    ensures IsBlank(s[..|s| - |r|])
    decreases |s|
  {
    if s != [] && IsSpace(s[0]) then
      var r := TrimStart(s[1..]);
      assert s[..|s| - |r|] == [s[0]] + s[1..][..|s[1..]| - |r|];
      r
    else s
  }

  function TrimEnd(s: string): (r: string)
    ensures |r| <= |s| && r == s[..|r|]
    ensures r == [] || !IsSpace(r[|r| - 1])
    ensures IsBlank(s[|r|..])
    decreases |s|
  {
    if s != [] && IsSpace(s[|s| - 1]) then
      var r := TrimEnd(s[..|s| - 1]);
      assert s[|r|..] == s[..|s| - 1][|r|..] + [s[|s| - 1]];
      r
    else s
  }

  lemma BlankConcat(a: string, b: string)
    requires IsBlank(a) && IsBlank(b)
    ensures IsBlank(a + b)
  {
  }

  /** `String.prototype.trim`: the text between the outer whitespace. */
  function Trim(s: string): (r: string)
    ensures |r| <= |s|
    ensures r == [] || (!IsSpace(r[0]) && !IsSpace(r[|r| - 1]))
    ensures r == [] <==> IsBlank(s)
  {
    var t := TrimStart(s);
    var r := TrimEnd(t);
    if r == [] then
      assert t[|r|..] == t;
      assert s == s[..|s| - |t|] + t;
      BlankConcat(s[..|s| - |t|], t);
      r
    else
      assert r[0] == t[0] && s[|s| - |t|] == t[0];
      r
  }

  /** The digits of a Brazilian CEP as the pages keep them: non-digits dropped, at most 8 left. */
  function CepDigits(value: string): (r: string)
    ensures |r| <= 8 && AllDigits(r)
  {
    Take(Digits(value), 8)
  }

  /** Trimming again changes nothing. */
  lemma TrimIdempotent(s: string)
    ensures Trim(Trim(s)) == Trim(s)
  {
    var r := Trim(s);
    assert TrimStart(r) == r;
    assert TrimEnd(r) == r;
  }

  /** `s.slice(0, n)`: the first `n` elements, or all of them when there are fewer. */
  function Take<T>(s: seq<T>, n: nat): (r: seq<T>)
    ensures |r| == if |s| <= n then |s| else n
    ensures r == s[..|r|]
  {
    if |s| <= n then s else s[..n]
  }

  // ---------------------------------------------------------------------
  // Searching
  // ---------------------------------------------------------------------

  predicate StartsWith(s: string, prefix: string)
  {
    |prefix| <= |s| && s[..|prefix|] == prefix
  }

  /** `String.prototype.includes`: `needle` occurs at some position of `hay`. */
  predicate Includes(hay: string, needle: string)
    decreases |hay|
  {
    StartsWith(hay, needle) || (hay != [] && Includes(hay[1..], needle))
  }

  lemma {:induction false} IncludesAt(hay: string, needle: string, k: nat)
    requires k + |needle| <= |hay| && hay[k..k + |needle|] == needle
    ensures Includes(hay, needle)
    decreases k
  {
    if k > 0 {
      assert hay[1..][k - 1..k - 1 + |needle|] == hay[k..k + |needle|];
      IncludesAt(hay[1..], needle, k - 1);
    }
  }

  lemma {:induction false} IncludesWitness(hay: string, needle: string) returns (k: nat)
    requires Includes(hay, needle)
    ensures k + |needle| <= |hay| && hay[k..k + |needle|] == needle
    decreases |hay|
  {
    if StartsWith(hay, needle) {
      k := 0;
    } else {
      var j := IncludesWitness(hay[1..], needle);
      k := j + 1;
      assert hay[k..k + |needle|] == hay[1..][j..j + |needle|];
    }
  }

  lemma {:induction false} IncludesEmpty(hay: string)
    ensures Includes(hay, [])
  {
    assert StartsWith(hay, []);
  }

  lemma {:induction false} IncludesSelf(s: string)
    ensures Includes(s, s)
  {
    assert StartsWith(s, s);
  }

  function Digits(s: string): (r: string)
    ensures |r| <= |s|
    ensures forall i :: 0 <= i < |r| ==> IsDigit(r[i])
  {
    if s == [] then []
    else if IsDigit(s[0]) then [s[0]] + Digits(s[1..])
    else Digits(s[1..])
  }

  lemma {:induction false} DigitsOfDigits(s: string)
    requires forall i :: 0 <= i < |s| ==> IsDigit(s[i])
    ensures Digits(s) == s
  {
    if s != [] { DigitsOfDigits(s[1..]); }
  }

  lemma {:induction false} DigitsAppend(a: string, b: string)
    ensures Digits(a + b) == Digits(a) + Digits(b)
  {
    if a == [] {
      assert a + b == b;
    } else {
      assert (a + b)[0] == a[0];
      assert (a + b)[1..] == a[1..] + b;
      DigitsAppend(a[1..], b);
    }
  }

  // ---------------------------------------------------------------------
  // Split and join
  // ---------------------------------------------------------------------

  /** `String.prototype.split` on a one-character separator. */
  function Split(s: string, d: char): (r: seq<string>)
    ensures |r| >= 1
    ensures forall i :: 0 <= i < |r| ==> d !in r[i]
    decreases |s|
  {
    if s == [] then [""]
    else
      var rest := Split(s[1..], d);
      if s[0] == d then [""] + rest
      else [[s[0]] + rest[0]] + rest[1..]
  }

  /** `Array.prototype.join`. */
  function Join(parts: seq<string>, sep: string): string
    decreases |parts|
  {
    if parts == [] then ""
    else if |parts| == 1 then parts[0]
    else parts[0] + sep + Join(parts[1..], sep)
  }

  lemma {:induction false} JoinSplit(s: string, d: char)
    ensures Join(Split(s, d), [d]) == s
    decreases |s|
  {
    if s != [] {
      var rest := Split(s[1..], d);
      JoinSplit(s[1..], d);
      if s[0] == d {
        assert Split(s, d) == [""] + rest;
      } else {
        var r := Split(s, d);
        assert r == [[s[0]] + rest[0]] + rest[1..];
        if |rest| == 1 {
          assert s[1..] == rest[0];
        } else {
          assert rest == [rest[0]] + rest[1..];
          assert Join(rest, [d]) == rest[0] + [d] + Join(rest[1..], [d]);
          assert r[1..] == rest[1..];
        }
      }
    }
  }

  /** Keep the elements that are not the empty string (`filter(Boolean)`). */
  function NonEmpty(parts: seq<string>): (r: seq<string>)
    ensures |r| <= |parts|
    ensures forall i :: 0 <= i < |r| ==> r[i] != "" && r[i] in parts
  {
    if parts == [] then []
    else if parts[0] == "" then NonEmpty(parts[1..])
    else [parts[0]] + NonEmpty(parts[1..])
  }
  /**
   * `[...parts, last].filter(Boolean).join(sep)` ends with `last`, and is
   * `last` alone when every other part is empty.
   */
  lemma JoinNonEmptyEndsWith(parts: seq<string>, last: string, sep: string)
    requires last != ""
    ensures var r := Join(NonEmpty(parts + [last]), sep);
      |r| >= |last| && r[|r| - |last|..] == last
    ensures NonEmpty(parts) == [] ==> Join(NonEmpty(parts + [last]), sep) == last
  {
    NonEmptySnoc(parts, last);
    JoinSnoc(NonEmpty(parts), last, sep);
  }

  /** Only empty strings leave nothing. */
  lemma {:induction false} NonEmptyOfEmpties(parts: seq<string>)
    ensures (forall i :: 0 <= i < |parts| ==> parts[i] == "") ==> NonEmpty(parts) == []
    decreases |parts|
  {
    if parts != [] {
      NonEmptyOfEmpties(parts[1..]);
      if forall i :: 0 <= i < |parts| ==> parts[i] == "" {
        assert forall i :: 0 <= i < |parts[1..]| ==> parts[1..][i] == parts[i + 1];
      }
    }
  }

  /** A kept last element stays last after dropping the empty strings. */
  lemma {:induction false} NonEmptySnoc(parts: seq<string>, last: string)
    requires last != ""
    ensures NonEmpty(parts + [last]) == NonEmpty(parts) + [last]
    decreases |parts|
  {
    if parts == [] {
      assert parts + [last] == [last];
    } else {
      assert (parts + [last])[1..] == parts[1..] + [last];
      NonEmptySnoc(parts[1..], last);
    }
  }

  /** Joining with one more part appends the separator and that part. */
  lemma {:induction false} JoinSnoc(parts: seq<string>, last: string, sep: string)
    ensures Join(parts + [last], sep) == if parts == [] then last else Join(parts, sep) + sep + last
    decreases |parts|
  {
    if parts == [] {
      assert parts + [last] == [last];
    } else if |parts| == 1 {
      assert (parts + [last])[1..] == [last];
    } else {
      assert (parts + [last])[1..] == parts[1..] + [last];
      JoinSnoc(parts[1..], last, sep);
    }
  }


  // ---------------------------------------------------------------------
  // Replacement
  // ---------------------------------------------------------------------

  /** `s.replace(pat, rep)` with a string pattern: only the first occurrence. */
  function ReplaceFirst(s: string, pat: string, rep: string): string
    decreases |s|
  {
    if StartsWith(s, pat) then rep + s[|pat|..]
    else if s == [] then s
    else [s[0]] + ReplaceFirst(s[1..], pat, rep)
  }

  lemma {:induction false} ReplaceFirstAbsent(s: string, pat: string, rep: string)
    requires !Includes(s, pat)
    ensures ReplaceFirst(s, pat, rep) == s
    decreases |s|
  {
    if s != [] { ReplaceFirstAbsent(s[1..], pat, rep); }
  }

  /** Replacing the first `c` of a text whose first `c` follows `a`: `a`, the replacement, then the rest. */
  lemma {:induction false} ReplaceFirstAfter(a: string, c: char, b: string, rep: string)
    requires c !in a
    ensures ReplaceFirst(a + [c] + b, [c], rep) == a + rep + b
    decreases |a|
  {
    var s := a + [c] + b;
    if a == [] {
      assert s == [c] + b;
      assert s[..1] == [c];
      assert ReplaceFirst(s, [c], rep) == rep + s[1..];
      assert s[1..] == b;
      assert a + rep + b == rep + b;
    } else {
      assert s[0] == a[0] && a[0] != c;
      assert s[..1] != [c] by {
        assert s[..1][0] == s[0];
      }
      assert !StartsWith(s, [c]);
      assert ReplaceFirst(s, [c], rep) == [s[0]] + ReplaceFirst(s[1..], [c], rep);
      assert s[1..] == a[1..] + [c] + b;
      ReplaceFirstAfter(a[1..], c, b, rep);
      assert a == [a[0]] + a[1..];
      assert a + rep + b == [a[0]] + (a[1..] + rep + b);
    }
  }

  /** `s.replace(/pat/g, rep)` for a pattern without regular-expression operators. */
  function ReplaceAll(s: string, pat: string, rep: string): string
    requires pat != []
    decreases |s|
  {
    if |s| < |pat| then s
    else if s[..|pat|] == pat then rep + ReplaceAll(s[|pat|..], pat, rep)
    else [s[0]] + ReplaceAll(s[1..], pat, rep)
  }

  lemma {:induction false} ReplaceAllSelf(s: string, pat: string)
    requires pat != []
    ensures ReplaceAll(s, pat, pat) == s
    decreases |s|
  {
    if |s| >= |pat| {
      if s[..|pat|] == pat {
        ReplaceAllSelf(s[|pat|..], pat);
        assert s == s[..|pat|] + s[|pat|..];
      } else {
        ReplaceAllSelf(s[1..], pat);
        assert s == [s[0]] + s[1..];
      }
    }
  }

  lemma {:induction false} ReplaceAllAbsent(s: string, pat: string, rep: string)
    requires pat != [] && !Includes(s, pat)
    ensures ReplaceAll(s, pat, rep) == s
    decreases |s|
  {
    if |s| >= |pat| {
      assert s[..|pat|] != pat;
      ReplaceAllAbsent(s[1..], pat, rep);
      assert s == [s[0]] + s[1..];
    }
  }

  /** No element is listed twice. */
  predicate Distinct<T(==)>(xs: seq<T>)
  {
    forall i, j :: 0 <= i < j < |xs| ==> xs[i] != xs[j]
  }

  // ---------------------------------------------------------------------
  // Stable sort by an integer key
  // ---------------------------------------------------------------------

  predicate SortedBy<T>(s: seq<T>, key: T -> int)
  {
    forall i, j :: 0 <= i < j < |s| ==> key(s[i]) <= key(s[j])
  }

  /**
   * Inserts `x` into `s` after every element whose key is not greater than
   * `key(x)`: the place a stable sort gives to an element that came last.
   */
  function InsertByKey<T>(x: T, s: seq<T>, key: T -> int): (r: seq<T>)
    ensures multiset(r) == multiset(s) + multiset{x}
    ensures |r| == |s| + 1
    decreases |s|
  {
    if s == [] || key(s[|s| - 1]) <= key(x) then s + [x]
    else
      var init := s[..|s| - 1];
      assert s == init + [s[|s| - 1]];
      InsertByKey(x, init, key) + [s[|s| - 1]]
  }

  lemma {:induction false} InsertByKeySorted<T>(x: T, s: seq<T>, key: T -> int)
    requires SortedBy(s, key)
    ensures SortedBy(InsertByKey(x, s, key), key)
    ensures forall e :: e in InsertByKey(x, s, key) ==> e == x || e in s
    decreases |s|
  {
    if s == [] || key(s[|s| - 1]) <= key(x) {
      var r := s + [x];
      forall i, j | 0 <= i < j < |r| ensures key(r[i]) <= key(r[j]) {
        if j == |r| - 1 && i < |s| {
          assert key(s[i]) <= key(s[|s| - 1]);
        }
      }
    } else {
      var init := s[..|s| - 1];
      var last := s[|s| - 1];
      InsertByKeySorted(x, init, key);
      var t := InsertByKey(x, init, key);
      var r := t + [last];
      forall i, j | 0 <= i < j < |r| ensures key(r[i]) <= key(r[j]) {
        if j == |r| - 1 && i < |t| {
          assert r[i] in t;
          if r[i] != x {
            assert r[i] in init;
            var k :| 0 <= k < |init| && init[k] == r[i];
            assert key(s[k]) <= key(s[|s| - 1]);
          }
        }
      }
    }
  }

  /** Stable ascending sort: `[...s].sort((a, b) => key(a) - key(b))`. */
  function SortByKey<T>(s: seq<T>, key: T -> int): (r: seq<T>)
    ensures multiset(r) == multiset(s)
    ensures |r| == |s|
    decreases |s|
  {
    if s == [] then []
    else
      var init := s[..|s| - 1];
      assert s == init + [s[|s| - 1]];
      InsertByKey(s[|s| - 1], SortByKey(init, key), key)
  }

  lemma {:induction false} SortByKeySorted<T>(s: seq<T>, key: T -> int)
    ensures SortedBy(SortByKey(s, key), key)
    decreases |s|
  {
    if s != [] {
      SortByKeySorted(s[..|s| - 1], key);
      InsertByKeySorted(s[|s| - 1], SortByKey(s[..|s| - 1], key), key);
    }
  }

  lemma {:induction false} InsertByKeyAtEnd<T>(x: T, s: seq<T>, key: T -> int)
    requires SortedBy(s + [x], key)
    ensures InsertByKey(x, s, key) == s + [x]
  {
    if s != [] {
      assert key((s + [x])[|s| - 1]) <= key((s + [x])[|s|]);
    }
  }

  /** A stable sort leaves an already sorted sequence as it is. */
  lemma {:induction false} SortByKeyOfSorted<T>(s: seq<T>, key: T -> int)
    requires SortedBy(s, key)
    ensures SortByKey(s, key) == s
    decreases |s|
  {
    if s != [] {
      var init := s[..|s| - 1];
      var last := s[|s| - 1];
      assert SortedBy(init, key) by {
        forall i, j | 0 <= i < j < |init| ensures key(init[i]) <= key(init[j]) {
          assert init[i] == s[i] && init[j] == s[j];
        }
      }
      SortByKeyOfSorted(init, key);
      assert s == init + [last];
      InsertByKeyAtEnd(last, init, key);
      assert SortByKey(s, key) == InsertByKey(last, SortByKey(init, key), key);
    }
  }

  /** The test "has key `k`", as a filter callback. */
  function KeyIs<T>(key: T -> int, k: int): T -> bool
  {
    x => key(x) == k
  }

  /**
   * Inserting `x` keeps, among the elements of any one key, their order, and
   * puts `x` after those sharing its key.
   */
  lemma {:induction false} InsertByKeyStable<T>(x: T, s: seq<T>, key: T -> int, k: int)
    ensures Filter(InsertByKey(x, s, key), KeyIs(key, k))
         == Filter(s, KeyIs(key, k)) + (if key(x) == k then [x] else [])
    decreases |s|
  {
    if s == [] || key(s[|s| - 1]) <= key(x) {
      FilterAppend(s, [x], KeyIs(key, k));
    } else {
      var init := s[..|s| - 1];
      var last := s[|s| - 1];
      assert s == init + [last];
      InsertByKeyStable(x, init, key, k);
      FilterAppend(InsertByKey(x, init, key), [last], KeyIs(key, k));
      FilterAppend(init, [last], KeyIs(key, k));
    }
  }

  /**
   * The sort is stable: the elements sharing any one key come out in the
   * order they went in.
   */
  lemma {:induction false} SortByKeyStable<T>(s: seq<T>, key: T -> int, k: int)
    ensures Filter(SortByKey(s, key), KeyIs(key, k)) == Filter(s, KeyIs(key, k))
    decreases |s|
  {
    if s != [] {
      var init := s[..|s| - 1];
      var last := s[|s| - 1];
      assert s == init + [last];
      SortByKeyStable(init, key, k);
      InsertByKeyStable(last, SortByKey(init, key), key, k);
      FilterAppend(init, [last], KeyIs(key, k));
    }
  }

  // ---------------------------------------------------------------------
  // Filtering
  // ---------------------------------------------------------------------

  /** `Array.prototype.filter`: the elements that satisfy `keep`, in their order. */
  function Filter<T>(s: seq<T>, keep: T -> bool): (r: seq<T>)
    ensures |r| <= |s|
    decreases |s|
  {
    if s == [] then [] else (if keep(s[0]) then [s[0]] else []) + Filter(s[1..], keep)
  }

  /** Filtering works piece by piece, so it keeps the relative order of what it keeps. */
  lemma {:induction false} FilterAppend<T>(a: seq<T>, b: seq<T>, keep: T -> bool)
    ensures Filter(a + b, keep) == Filter(a, keep) + Filter(b, keep)
    decreases |a|
  {
    if a != [] {
      assert (a + b)[1..] == a[1..] + b;
      FilterAppend(a[1..], b, keep);
    } else {
      assert a + b == b;
    }
  }

  /** Filtering one more element of a prefix appends that element when it is kept. */
  lemma FilterPrefixStep<T>(s: seq<T>, i: nat, keep: T -> bool)
    requires i < |s|
    ensures Filter(s[..i + 1], keep) == Filter(s[..i], keep) + (if keep(s[i]) then [s[i]] else [])
  {
    assert s[..i + 1] == s[..i] + [s[i]];
    FilterAppend(s[..i], [s[i]], keep);
  }

  /** A filter that keeps every element is the identity. */
  lemma {:induction false} FilterKeepsAll<T>(s: seq<T>, keep: T -> bool)
    requires forall i :: 0 <= i < |s| ==> keep(s[i])
    ensures Filter(s, keep) == s
    decreases |s|
  {
    if s != [] { FilterKeepsAll(s[1..], keep); }
  }

  /** What the filter keeps: exactly the elements of `s` that satisfy `keep`. */
  lemma {:induction false} FilterMembership<T>(s: seq<T>, keep: T -> bool, x: T)
    ensures x in Filter(s, keep) <==> x in s && keep(x)
    decreases |s|
  {
    if s != [] {
      FilterMembership(s[1..], keep, x);
      assert s == [s[0]] + s[1..];
    }
  }

  /** Where an element of the filtered sequence comes from. */
  lemma {:induction false} FilterIndex<T>(s: seq<T>, keep: T -> bool, j: nat) returns (b: nat)
    requires j < |Filter(s, keep)|
    ensures b < |s| && Filter(s, keep)[j] == s[b]
    decreases |s|
  {
    var rest := Filter(s[1..], keep);
    if keep(s[0]) {
      assert Filter(s, keep) == [s[0]] + rest;
      if j == 0 {
        b := 0;
      } else {
        var k := FilterIndex(s[1..], keep, j - 1);
        b := k + 1;
      }
    } else {
      assert Filter(s, keep) == rest;
      var k := FilterIndex(s[1..], keep, j);
      b := k + 1;
    }
  }

  /** Two kept elements appear in the filtered sequence in the order they had in `s`. */
  lemma {:induction false} FilterPreservesOrder<T>(s: seq<T>, keep: T -> bool, i: nat, j: nat) returns (a: nat, b: nat)
    requires i < j < |Filter(s, keep)|
    ensures a < b < |s| && Filter(s, keep)[i] == s[a] && Filter(s, keep)[j] == s[b]
    decreases |s|
  {
    var f := Filter(s, keep);
    var rest := Filter(s[1..], keep);
    if keep(s[0]) {
      assert f == [s[0]] + rest;
      if i == 0 {
        var k := FilterIndex(s[1..], keep, j - 1);
        a, b := 0, k + 1;
      } else {
        var a', b' := FilterPreservesOrder(s[1..], keep, i - 1, j - 1);
        a, b := a' + 1, b' + 1;
      }
    } else {
      assert f == rest;
      var a', b' := FilterPreservesOrder(s[1..], keep, i, j);
      a, b := a' + 1, b' + 1;
    }
  }

  /** Number of elements satisfying `p`. */
  function Count<T>(s: seq<T>, p: T -> bool): (n: nat)
    ensures n <= |s|
    decreases |s|
  {
    if s == [] then 0 else (if p(s[0]) then 1 else 0) + Count(s[1..], p)
  }

  /** The count is the length of the filtered sequence. */
  lemma {:induction false} CountIsFilterLength<T>(s: seq<T>, p: T -> bool)
    ensures Count(s, p) == |Filter(s, p)|
    decreases |s|
  {
    if s != [] { CountIsFilterLength(s[1..], p); }
  }

  // ---------------------------------------------------------------------
  // Decimal numbers
  // ---------------------------------------------------------------------

  function DigitChar(d: nat): (c: char)
    requires d < 10
    ensures IsDigit(c)
  {
    ('0' as int + d) as char
  }

  function DigitValue(c: char): (d: nat)
    requires IsDigit(c)
    ensures d < 10 && DigitChar(d) == c
  {
    (c as int - '0' as int) as nat
  }

  /** `String(n)` for a natural number: its decimal digits, no leading zero. */
  function NatToString(n: nat): (r: string)
    ensures |r| >= 1
    ensures forall i :: 0 <= i < |r| ==> IsDigit(r[i])
    ensures r[0] == '0' <==> n == 0
    decreases n
  {
    if n < 10 then [DigitChar(n)] else NatToString(n / 10) + [DigitChar(n % 10)]
  }

  /** `String(n)` for an integer. */
  function IntToString(n: int): (r: string)
    ensures '\n' !in r && ',' !in r
  {
    var digits := NatToString(if n < 0 then -n else n);
    assert forall i :: 0 <= i < |digits| ==> IsDigit(digits[i]);
    if n < 0 then "-" + digits else digits
  }

  predicate AllDigits(s: string)
  {
    forall i :: 0 <= i < |s| ==> IsDigit(s[i])
  }

  /** The number a string of decimal digits denotes. */
  function DigitsValue(s: string): nat
    requires AllDigits(s)
    decreases |s|
  {
    if s == [] then 0 else DigitsValue(s[..|s| - 1]) * 10 + DigitValue(s[|s| - 1])
  }

  /** Reading back the decimal rendering gives the number. */
  lemma {:induction false} NatToStringValue(n: nat)
    ensures DigitsValue(NatToString(n)) == n
    decreases n
  {
    var r := NatToString(n);
    if n >= 10 {
      NatToStringValue(n / 10);
      assert r[..|r| - 1] == NatToString(n / 10);
      assert DigitValue(r[|r| - 1]) == n % 10;
      assert (n / 10) * 10 + n % 10 == n;
    }
  }

  /** The longest prefix of decimal digits. */
  function DigitPrefix(s: string): (r: string)
    ensures AllDigits(r) && r <= s
    ensures |r| < |s| ==> !IsDigit(s[|r|])
    decreases |s|
  {
    if s != [] && IsDigit(s[0]) then [s[0]] + DigitPrefix(s[1..]) else []
  }

  lemma {:induction false} DigitPrefixAll(s: string)
    requires AllDigits(s)
    ensures DigitPrefix(s) == s
    decreases |s|
  {
    if s != [] { DigitPrefixAll(s[1..]); }
  }

  /** The sign of a number literal and the text after it. */
  function SignOf(s: string): (int, string)
  {
    if s != [] && s[0] == '-' then (-1, s[1..])
    else if s != [] && s[0] == '+' then (1, s[1..])
    else (1, s)
  }

  /**
   * `Number.parseInt(s, 10)`: leading white space and a sign are skipped, then
   * the longest run of digits is read; `None` is NaN (no digit at all).
   */
  function ParseInt(s: string): (r: Option<int>)
    ensures r.Some? <==> DigitPrefix(SignOf(TrimStart(s)).1) != []
  {
    var signed := SignOf(TrimStart(s));
    var ds := DigitPrefix(signed.1);
    if ds == [] then None else Some(signed.0 * DigitsValue(ds))
  }

  /** A non-empty run of digits has no leading space and no sign, and is read in full. */
  lemma PlainDigits(r: string)
    requires |r| >= 1 && AllDigits(r)
    ensures TrimStart(r) == r
    ensures SignOf(r) == (1, r)
    ensures DigitPrefix(r) == r
  {
    assert IsDigit(r[0]);
    assert !IsSpace(r[0]) && r[0] != '-' && r[0] != '+';
    assert TrimStart(r) == r;
    DigitPrefixAll(r);
  }

  lemma ParseIntOfNat(n: nat)
    ensures ParseInt(NatToString(n)) == Some(n)
  {
    PlainDigits(NatToString(n));
    NatToStringValue(n);
  }

  /** The value of the digits after a decimal point: `0.d1d2...`. */
  function FractionValue(frac: string): (v: real)
    requires AllDigits(frac)
    ensures 0.0 <= v <= 1.0
    ensures frac == [] ==> v == 0.0
    decreases |frac|
  {
    if frac == [] then 0.0 else (DigitValue(frac[0]) as real + FractionValue(frac[1..])) / 10.0
  }

  /**
   * `Number.parseFloat(s)` on plain decimal notation: white space, a sign,
   * digits, and an optional fraction; `None` is NaN (no digit at all).
   */
  function ParseFloat(s: string): (r: Option<real>)
    ensures DigitPrefix(SignOf(TrimStart(s)).1) != [] ==> r.Some?
  {
    var signed := SignOf(TrimStart(s));
    var rest := signed.1;
    var whole := DigitPrefix(rest);
    var after := rest[|whole|..];
    var frac := if after != [] && after[0] == '.' then DigitPrefix(after[1..]) else [];
    if whole == [] && frac == [] then None
    else
      var magnitude := DigitsValue(whole) as real + FractionValue(frac);
      Some(if signed.0 < 0 then -magnitude else magnitude)
  }

  lemma ParseFloatOfDigits(r: string)
    requires |r| >= 1 && AllDigits(r)
    ensures ParseFloat(r).Some? && ParseFloat(r).value == DigitsValue(r) as real
  {
    PlainDigits(r);
    var signed := SignOf(TrimStart(r));
    assert signed == (1, r);
    assert r[|r|..] == [];
  }

  lemma ParseFloatOfNat(n: nat)
    ensures ParseFloat(NatToString(n)).Some? && ParseFloat(NatToString(n)).value == n as real
  {
    ParseFloatOfDigits(NatToString(n));
    NatToStringValue(n);
  }

  /** Elements satisfying `p` and elements satisfying its negation add up to the whole. */
  lemma {:induction false} CountComplement<T>(s: seq<T>, p: T -> bool, q: T -> bool)
    requires forall i :: 0 <= i < |s| ==> (p(s[i]) <==> !q(s[i]))
    ensures Count(s, p) + Count(s, q) == |s|
    decreases |s|
  {
    if s != [] { CountComplement(s[1..], p, q); }
  }

  /** Predicates that agree everywhere count the same. */
  lemma {:induction false} CountSame<T>(s: seq<T>, p: T -> bool, q: T -> bool)
    requires forall x :: p(x) <==> q(x)
    ensures Count(s, p) == Count(s, q)
    decreases |s|
  {
    if s != [] { CountSame(s[1..], p, q); }
  }

  /** Two predicates that never hold together: the count of either is the sum of the counts. */
  lemma {:induction false} CountUnion<T>(s: seq<T>, p: T -> bool, q: T -> bool, both: T -> bool)
    requires forall x :: both(x) <==> p(x) || q(x)
    requires forall x :: !(p(x) && q(x))
    ensures Count(s, both) == Count(s, p) + Count(s, q)
    decreases |s|
  {
    if s != [] { CountUnion(s[1..], p, q, both); }
  }

  /** A predicate that never holds counts nothing. */
  lemma {:induction false} CountNone<T>(s: seq<T>, p: T -> bool)
    requires forall x :: !p(x)
    ensures Count(s, p) == 0
    decreases |s|
  {
    if s != [] { CountNone(s[1..], p); }
  }

  /** Appending one element adds one to the count when it satisfies `p`. */
  lemma {:induction false} CountSnoc<T>(s: seq<T>, x: T, p: T -> bool)
    ensures Count(s + [x], p) == Count(s, p) + (if p(x) then 1 else 0)
    decreases |s|
  {
    if s != [] {
      assert (s + [x])[1..] == s[1..] + [x];
      CountSnoc(s[1..], x, p);
    }
  }

  /** Two predicates that never hold together count at most the whole. */
  lemma {:induction false} CountDisjoint<T>(s: seq<T>, p: T -> bool, q: T -> bool)
    requires forall x :: !(p(x) && q(x))
    ensures Count(s, p) + Count(s, q) <= |s|
    decreases |s|
  {
    if s != [] { CountDisjoint(s[1..], p, q); }
  }

  /** Splitting at the first separator: the part before it, then the rest. */
  lemma {:induction false} SplitAtSeparator(a: string, b: string, d: char)
    requires d !in a
    ensures Split(a + [d] + b, d) == [a] + Split(b, d)
    decreases |a|
  {
    if a == [] {
      assert a + [d] + b == [d] + b;
      assert ([d] + b)[1..] == b;
    } else {
      var s := a + [d] + b;
      assert s[0] == a[0] && s[1..] == a[1..] + [d] + b;
      SplitAtSeparator(a[1..], b, d);
      assert [a[0]] + a[1..] == a;
    }
  }

  lemma {:induction false} SplitNoSeparator(a: string, d: char)
    requires d !in a
    ensures Split(a, d) == [a]
    decreases |a|
  {
    if a != [] {
      SplitNoSeparator(a[1..], d);
      assert [a[0]] + a[1..] == a;
    }
  }

  /** Joining parts free of the separator and splitting again gives the parts back. */
  lemma {:induction false} SplitJoin(parts: seq<string>, d: char)
    requires |parts| >= 1
    requires forall i :: 0 <= i < |parts| ==> d !in parts[i]
    ensures Split(Join(parts, [d]), d) == parts
    decreases |parts|
  {
    if |parts| == 1 {
      SplitNoSeparator(parts[0], d);
    } else {
      SplitJoin(parts[1..], d);
      SplitAtSeparator(parts[0], Join(parts[1..], [d]), d);
      assert [parts[0]] + parts[1..] == parts;
    }
  }
}
