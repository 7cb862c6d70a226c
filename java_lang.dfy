/**
 * The pieces of the Java and JavaScript runtime the editor's core relies on:
 * `null` as an option, thrown exceptions as a result, and the String
 * operations the controllers call (trim, split, join, lastIndexOf,
 * Long.parseLong, a case-insensitive compare).
 */
module JavaLang {

  datatype Option<+T> = None | Some(value: T)

  /** The exception classes the core throws or lets escape. */
  datatype ExceptionClass =
    | IllegalArgumentException
    | NumberFormatException              // a subclass of IllegalArgumentException
    | IllegalStateException
    | IllegalAccessException
    | AccessDeniedException
    | RuntimeException
    | NoSuchElementException             // Optional.orElseThrow()
    | NullPointerException
    | ArrayIndexOutOfBoundsException
    | ClassCastException
    | IncorrectResultSizeDataAccessException  // a single-result query that matched several rows
    | AmqpException                      // the message broker refused a publish
    | MessagingException                 // the STOMP broker refused a send
    | DataAccessResourceFailureException // the search index is unreachable

  datatype Exception = Exception(cls: ExceptionClass, message: Option<string>)

  /** A call that either returns a value or throws. */
  datatype Result<+T> = Ok(value: T) | Throw(exception: Exception)

  function Fail<T>(cls: ExceptionClass, message: string): Result<T>
  {
    Throw(Exception(cls, Some(message)))
  }

  /** How `"..." + s` renders a possibly-null string. */
  function Str(s: Option<string>): string
  {
    if s.Some? then s.value else "null"
  }

  /** `s != null && !s.isEmpty()` */
  predicate HasText(s: Option<string>)
  {
    s.Some? && s.value != ""
  }

  // ---------------------------------------------------------------------
  // String.trim(): strips every leading and trailing char <= U+0020
  // ---------------------------------------------------------------------

  predicate IsSpace(c: char)
  {
    c <= ' '
  }

  function TrimEnd(s: string): (r: string)
    ensures |r| <= |s| && r == s[..|r|]
    ensures forall k :: |r| <= k < |s| ==> IsSpace(s[k])
    ensures r == [] || !IsSpace(r[|r| - 1])
  {
    if s != [] && IsSpace(s[|s| - 1]) then TrimEnd(s[..|s| - 1]) else s
  }

  function TrimStart(s: string): (r: string)
    ensures |r| <= |s| && r == s[|s| - |r|..]
    ensures forall k :: 0 <= k < |s| - |r| ==> IsSpace(s[k])
    ensures r == [] || !IsSpace(r[0])
  {
    if s != [] && IsSpace(s[0]) then TrimStart(s[1..]) else s
  }

  /** String.trim(); the result is empty exactly when `s` is blank. */
  function Trim(s: string): (r: string)
    ensures r == [] || (!IsSpace(r[0]) && !IsSpace(r[|r| - 1]))
    ensures r == [] <==> forall k :: 0 <= k < |s| ==> IsSpace(s[k])
    ensures |r| <= |s|
    ensures forall c :: c in r ==> c in s
  {
    var e := TrimEnd(s);
    var r := TrimStart(e);
    assert r == [] ==> forall k :: 0 <= k < |s| ==> IsSpace(s[k]) by {
      if r == [] {
        forall k | 0 <= k < |s| ensures IsSpace(s[k]) {
          if k < |e| { assert s[k] == e[k]; }
        }
      }
    }
    assert forall c :: c in r ==> c in e;
    assert forall c :: c in e ==> c in s;
    r
  }

  lemma {:induction false} TrimStartOfTrimmed(s: string)
    requires s == [] || !IsSpace(s[0])
    ensures TrimStart(s) == s
  {
  }

  /** Trimming twice is trimming once. */
  lemma TrimIdempotent(s: string)
    ensures Trim(Trim(s)) == Trim(s)
  {
    var t := Trim(s);
    if t != [] {
      assert TrimEnd(t) == t;
      TrimStartOfTrimmed(t);
    }
  }

  // ---------------------------------------------------------------------
  // String.join and String.split with a single-character separator
  // ---------------------------------------------------------------------

  /** String.join(sep, parts) */
  function Join(sep: char, parts: seq<string>): string
  {
    if |parts| == 0 then ""
    else if |parts| == 1 then parts[0]
    else parts[0] + [sep] + Join(sep, parts[1..])
  }

  /**
   * Every field between occurrences of `sep`, empty ones included (what
   * String.split does with a negative limit). Joining the fields back gives `s`.
   */
  function Fields(s: string, sep: char): (r: seq<string>)
    ensures |r| >= 1
    ensures forall i :: 0 <= i < |r| ==> sep !in r[i]
    ensures Join(sep, r) == s
    decreases |s|
  {
    if s == [] then [""]
    else
      var rest := Fields(s[1..], sep);
      if s[0] == sep then [""] + rest
      else [[s[0]] + rest[0]] + rest[1..]
  }

  /** Drops the trailing empty strings, as String.split with limit 0 does. */
  function DropTrailingEmpty(l: seq<string>): (r: seq<string>)
    ensures r <= l
    ensures r == [] || r[|r| - 1] != ""
    ensures forall i :: |r| <= i < |l| ==> l[i] == ""
  {
    if l != [] && l[|l| - 1] == "" then DropTrailingEmpty(l[..|l| - 1]) else l
  }

  /**
   * String.split(sep) with Java's default limit 0: when `sep` does not occur
   * the result is `[s]` (so `""` splits into `[""]`); otherwise the fields
   * with the trailing empty ones removed.
   */
  function Split(s: string, sep: char): (r: seq<string>)
    ensures forall i :: 0 <= i < |r| ==> sep !in r[i]
  {
    if sep !in s then [s] else DropTrailingEmpty(Fields(s, sep))
  }

  lemma {:induction false} FieldsWithoutSep(a: string, sep: char)
    requires sep !in a
    ensures Fields(a, sep) == [a]
    decreases |a|
  {
    if a != [] {
      FieldsWithoutSep(a[1..], sep);
    }
  }

  lemma {:induction false} FieldsAfterSep(a: string, sep: char, b: string)
    requires sep !in a
    ensures Fields(a + [sep] + b, sep) == [a] + Fields(b, sep)
    decreases |a|
  {
    var s := a + [sep] + b;
    if a == [] {
      assert s[1..] == b;
    } else {
      assert s[1..] == a[1..] + [sep] + b;
      FieldsAfterSep(a[1..], sep, b);
      assert [a[0]] + a[1..] == a;
    }
  }

  /** Splitting a join into all fields gives the parts back. */
  lemma {:induction false} FieldsOfJoin(sep: char, parts: seq<string>)
    requires |parts| >= 1
    requires forall i :: 0 <= i < |parts| ==> sep !in parts[i]
    ensures Fields(Join(sep, parts), sep) == parts
  {
    if |parts| == 1 {
      FieldsWithoutSep(parts[0], sep);
    } else {
      FieldsOfJoin(sep, parts[1..]);
      FieldsAfterSep(parts[0], sep, Join(sep, parts[1..]));
      assert [parts[0]] + parts[1..] == parts;
    }
  }

  lemma JoinHasSep(sep: char, parts: seq<string>)
    requires |parts| >= 2
    ensures sep in Join(sep, parts)
  {
    var j := Join(sep, parts);
    assert j[|parts[0]|] == sep;
  }

  /**
   * split undoes join when no part contains the separator and the last part
   * is not empty (split drops a trailing empty field).
   */
  lemma SplitOfJoin(sep: char, parts: seq<string>)
    requires |parts| >= 1 && parts[|parts| - 1] != ""
    requires forall i :: 0 <= i < |parts| ==> sep !in parts[i]
    ensures Split(Join(sep, parts), sep) == parts
  {
    if |parts| >= 2 {
      JoinHasSep(sep, parts);
      FieldsOfJoin(sep, parts);
    }
  }

  /** No element occurs twice. */
  predicate NoDuplicates<T(==)>(l: seq<T>)
  {
    forall i, j :: 0 <= i < j < |l| ==> l[i] != l[j]
  }

  /** `new ArrayList<>(set)`: the set's elements, each once, in some order. */
  method ListOf<T(==)>(s: set<T>) returns (l: seq<T>)
    ensures Elements(l) == s
    ensures |l| == |s|
    ensures NoDuplicates(l)
  {
    l := [];
    var rest := s;
    while rest != {}
      invariant rest !! Elements(l)
      invariant rest + Elements(l) == s
      invariant |l| + |rest| == |s|
      invariant NoDuplicates(l)
      decreases |rest|
    {
      var x :| x in rest;
      l := l + [x];
      rest := rest - {x};
    }
  }

  /** Appending one string adds it to the non-empty ones unless it is empty. */
  lemma NonEmptySnoc(l: seq<string>, x: string)
    ensures NonEmpty(l + [x]) == NonEmpty(l) + (if x != "" then {x} else {})
  {
  }

  /** The elements of a list, as a set. */
  function Elements<T>(l: seq<T>): set<T>
  {
    set x | x in l
  }

  /** The non-empty strings of a list, as a set. */
  function NonEmpty(l: seq<string>): set<string>
  {
    set x | x in l && x != ""
  }

  /** Without that condition split still returns the parts up to empty ones. */
  lemma SplitOfJoinNonEmpty(sep: char, parts: seq<string>)
    requires forall i :: 0 <= i < |parts| ==> sep !in parts[i]
    ensures NonEmpty(Split(Join(sep, parts), sep)) == NonEmpty(parts)
  {
    var s := Join(sep, parts);
    if |parts| >= 2 {
      JoinHasSep(sep, parts);
      FieldsOfJoin(sep, parts);
      var r := Split(s, sep);
      assert r <= parts;
      forall x | x in parts && x != "" ensures x in r {
        var i :| 0 <= i < |parts| && parts[i] == x;
        assert i < |r|;
        assert r[i] == x;
      }
    }
  }

  // ---------------------------------------------------------------------
  // Searching and comparing
  // ---------------------------------------------------------------------

  /** String.contains / SQL `LIKE '%sub%'` without wildcards in `sub`. */
  predicate Contains(s: string, sub: string)
    decreases |s|
  {
    sub <= s || (s != [] && Contains(s[1..], sub))
  }

  lemma {:induction false} ContainsAt(s: string, sub: string, i: nat)
    requires i + |sub| <= |s| && s[i..i + |sub|] == sub
    ensures Contains(s, sub)
    decreases i
  {
    if i > 0 {
      assert s[1..][i - 1..i - 1 + |sub|] == sub;
      ContainsAt(s[1..], sub, i - 1);
    }
  }

  /** A string contained in either half is contained in the concatenation. */
  lemma {:induction false} ContainsAppend(a: string, b: string, sub: string)
    requires Contains(a, sub) || Contains(b, sub)
    ensures Contains(a + b, sub)
    decreases |a|
  {
    if a != [] && !(sub <= a + b) {
      assert (a + b)[1..] == a[1..] + b;
      if Contains(a, sub) {
        assert !(sub <= a);
        ContainsAppend(a[1..], b, sub);
      } else {
        ContainsAppend(a[1..], b, sub);
      }
    } else if a == [] {
      assert a + b == b;
    }
  }

  /** Every part occurs in its join. */
  lemma {:induction false} ContainsPartOfJoin(sep: char, parts: seq<string>, i: nat)
    requires i < |parts|
    ensures Contains(Join(sep, parts), parts[i])
  {
    if |parts| == 1 {
      assert parts[0] <= Join(sep, parts);
    } else if i == 0 {
      assert parts[0] <= Join(sep, parts);
    } else {
      ContainsPartOfJoin(sep, parts[1..], i - 1);
      ContainsAppend(parts[0] + [sep], Join(sep, parts[1..]), parts[i]);
    }
  }

  /** Every field split returns occurs in the split string. */
  lemma ContainsField(s: string, sep: char, i: nat)
    requires i < |Split(s, sep)|
    ensures Contains(s, Split(s, sep)[i])
  {
    if sep !in s {
      assert s <= s;
    } else {
      ContainsPartOfJoin(sep, Fields(s, sep), i);
    }
  }

  /** Lower-casing both sides keeps an occurrence. */
  lemma {:induction false} ContainsLower(s: string, sub: string)
    requires Contains(s, sub)
    ensures Contains(Lower(s), Lower(sub))
    decreases |s|
  {
    if sub <= s {
      assert Lower(s)[..|sub|] == Lower(sub);
    } else {
      assert Lower(s)[1..] == Lower(s[1..]);
      ContainsLower(s[1..], sub);
    }
  }

  /** Lower-casing twice is lower-casing once. */
  lemma LowerIdempotent(s: string)
    ensures Lower(Lower(s)) == Lower(s)
  {
  }

  /** String.lastIndexOf(c), -1 when `c` does not occur. */
  function LastIndexOf(s: string, c: char): (r: int)
    ensures -1 <= r < |s|
    ensures r == -1 <==> c !in s
    ensures r >= 0 ==> s[r] == c && c !in s[r + 1..]
  {
    if s == [] then -1
    else if s[|s| - 1] == c then |s| - 1
    else
      var r := LastIndexOf(s[..|s| - 1], c);
      assert s[..|s| - 1] + [s[|s| - 1]] == s;
      r
  }

  function LowerChar(c: char): char
  {
    if 'A' <= c <= 'Z' then (c as int + 32) as char else c
  }

  function Lower(s: string): (r: string)
    ensures |r| == |s|
  {
    seq(|s|, i requires 0 <= i < |s| => LowerChar(s[i]))
  }

  /** String.equalsIgnoreCase, on the ASCII letters. */
  predicate EqualsIgnoreCase(a: string, b: string)
  {
    Lower(a) == Lower(b)
  }

  // ---------------------------------------------------------------------
  // Long.parseLong and its inverse
  // ---------------------------------------------------------------------

  const LONG_MIN: int := -0x8000_0000_0000_0000
  const LONG_MAX: int := 0x7FFF_FFFF_FFFF_FFFF

  predicate IsDigit(c: char)
  {
    '0' <= c <= '9'
  }

  function DigitsValue(s: string): (n: nat)
    requires forall i :: 0 <= i < |s| ==> IsDigit(s[i])
  {
    if s == [] then 0
    else
      assert IsDigit(s[|s| - 1]);
      DigitsValue(s[..|s| - 1]) * 10 + (s[|s| - 1] as int - '0' as int)
  }

  /** Long.parseLong: an optional sign, then at least one digit, in range. */
  function ParseLong(s: string): (r: Result<int>)
    ensures r.Ok? ==> LONG_MIN <= r.value <= LONG_MAX
    ensures r.Throw? ==> r.exception.cls == NumberFormatException
    ensures s == [] ==> r.Throw?
  {
    var neg := s != [] && s[0] == '-';
    var body := if s != [] && (s[0] == '-' || s[0] == '+') then s[1..] else s;
    if body == [] || exists i :: 0 <= i < |body| && !IsDigit(body[i]) then
      Fail(NumberFormatException, "For input string: \"" + s + "\"")
    else
      var v: int := DigitsValue(body);
      var n: int := if neg then 0 - v else v;
      if n < LONG_MIN || n > LONG_MAX then Fail(NumberFormatException, "For input string: \"" + s + "\"")
      else Ok(n)
  }

  /** Long.toString for a non-negative value. */
  function Decimal(n: nat): (s: string)
    ensures s != [] && forall i :: 0 <= i < |s| ==> IsDigit(s[i])
  {
    if n < 10 then [('0' as int + n) as char]
    else Decimal(n / 10) + [('0' as int + n % 10) as char]
  }

  lemma {:induction false} DigitsOfDecimal(n: nat)
    ensures DigitsValue(Decimal(n)) == n
  {
    if n >= 10 {
      DigitsOfDecimal(n / 10);
      var s := Decimal(n);
      assert s[..|s| - 1] == Decimal(n / 10);
    }
  }

  /** Parsing the decimal text of an id gives the id back. */
  lemma ParseDecimal(n: nat)
    requires n <= LONG_MAX
    ensures ParseLong(Decimal(n)) == Ok(n)
  {
    DigitsOfDecimal(n);
  }
}
