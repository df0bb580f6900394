/** The hand-written `document.cookie` parser of axiosClient.ts: split on ';',
    trim each entry, split it on '=' and keep the first two pieces as key and
    value, folding left to right into a plain object. */
module CookieParser {

  import opened Axios

  /** The characters `String.prototype.trim` removes: the WhiteSpace and
      LineTerminator code points of ECMAScript (section 12.2 and 12.3 of
      ECMA-262), the space separators of Unicode category Zs included. */
  predicate IsTrimmable(c: char)
  {
    var n := c as int;
    n == 0x09 || n == 0x0A || n == 0x0B || n == 0x0C || n == 0x0D || n == 0x20
    || n == 0xA0 || n == 0x1680 || (0x2000 <= n <= 0x200A) || n == 0x2028
    || n == 0x2029 || n == 0x202F || n == 0x205F || n == 0x3000 || n == 0xFEFF
  }

  /** Drops the leading trimmable characters. */
  function TrimStart(s: string): (r: string)
    ensures |r| <= |s| && r == s[|s| - |r|..]
    ensures forall k :: 0 <= k < |s| - |r| ==> IsTrimmable(s[k])
    ensures r == [] || !IsTrimmable(r[0])
  {
    if s != [] && IsTrimmable(s[0]) then TrimStart(s[1..]) else s
  }

  /** Drops the trailing trimmable characters. */
  function TrimEnd(s: string): (r: string)
    ensures |r| <= |s| && r == s[..|r|]
    ensures forall k :: |r| <= k < |s| ==> IsTrimmable(s[k])
    ensures r == [] || !IsTrimmable(r[|r| - 1])
  {
    if s != [] && IsTrimmable(s[|s| - 1]) then TrimEnd(s[..|s| - 1]) else s
  }

  /** `s.trim()` */
  function Trim(s: string): string
  {
    TrimEnd(TrimStart(s))
  }

  /** `s.split(sep)` for a one-character separator: the maximal pieces between
      separators, so always at least one piece ("".split(";") is [""]). */
  function Split(s: string, sep: char): (parts: seq<string>)
    ensures |parts| >= 1
    ensures forall i :: 0 <= i < |parts| ==> sep !in parts[i]
  {
    if s == [] then [[]]
    else
      var rest := Split(s[1..], sep);
      if s[0] == sep then [[]] + rest else [[s[0]] + rest[0]] + rest[1..]
  }

  /** `parts.join(sep)`, the inverse of Split. */
  function Join(parts: seq<string>, sep: char): string
    requires |parts| >= 1
  {
    if |parts| == 1 then parts[0] else parts[0] + [sep] + Join(parts[1..], sep)
  }

  /** Joining the pieces of a split gives back the original text. */
  lemma {:induction false} JoinSplit(s: string, sep: char)
    ensures Join(Split(s, sep), sep) == s
  {
    if s != [] {
      var rest := Split(s[1..], sep);
      JoinSplit(s[1..], sep);
      if s[0] == sep {
        assert Split(s, sep)[1..] == rest;
      } else {
        var parts := Split(s, sep);
        assert parts[0] == [s[0]] + rest[0];
        assert parts[1..] == rest[1..];
        if |rest| == 1 {
          assert Join(parts, sep) == [s[0]] + rest[0];
        } else {
          assert Join(rest, sep) == rest[0] + [sep] + Join(rest[1..], sep);
          assert Join(parts, sep) == [s[0]] + rest[0] + [sep] + Join(rest[1..], sep);
        }
        assert s == [s[0]] + s[1..];
      }
    }
  }

  /** Text without the separator is one piece. */
  lemma {:induction false} SplitWithout(a: string, sep: char)
    requires sep !in a
    ensures Split(a, sep) == [a]
  {
    if a != [] {
      SplitWithout(a[1..], sep);
      assert a == [a[0]] + a[1..];
    }
  }

  /** A separator after separator-free text ends the first piece there. */
  lemma {:induction false} SplitAfter(a: string, b: string, sep: char)
    requires sep !in a
    ensures Split(a + [sep] + b, sep) == [a] + Split(b, sep)
  {
    if a == [] {
      assert a + [sep] + b == [sep] + b;
      assert ([sep] + b)[1..] == b;
    } else {
      assert (a + [sep] + b)[1..] == a[1..] + [sep] + b;
      SplitAfter(a[1..], b, sep);
      assert a == [a[0]] + a[1..];
    }
  }

  /** Splitting a join of separator-free pieces gives back the pieces. */
  lemma {:induction false} SplitJoin(parts: seq<string>, sep: char)
    requires |parts| >= 1
    requires forall i :: 0 <= i < |parts| ==> sep !in parts[i]
    ensures Split(Join(parts, sep), sep) == parts
  {
    if |parts| == 1 {
      SplitWithout(parts[0], sep);
    } else {
      SplitJoin(parts[1..], sep);
      SplitAfter(parts[0], Join(parts[1..], sep), sep);
      assert parts == [parts[0]] + parts[1..];
    }
  }

  /** One `key=value` entry as the fold sees it; `value` is absent when the
      entry has no '=' (destructuring a one-piece array gives undefined). */
  datatype Entry = Entry(key: string, value: Option<string>)

  /** `const [key, value] = cookie.trim().split('=')` */
  function ParseEntry(cookie: string): Entry
  {
    var parts := Split(Trim(cookie), '=');
    Entry(parts[0], if |parts| > 1 then Some(parts[1]) else None)
  }

  /** The key is the trimmed entry up to its first '='; the value is the text
      between the first and the second '=', present exactly when there is a
      first '='. */
  lemma EntryShape(cookie: string)
    ensures var t, e := Trim(cookie), ParseEntry(cookie);
      && '=' !in e.key
      && (e.value.None? <==> '=' !in t)
      && (e.value.None? ==> e.key == t)
      && (e.value.Some? ==>
            var v, n := e.value.value, |e.key| + 1 + |e.value.value|;
            '=' !in v && n <= |t| && t[..n] == e.key + "=" + v
            && (n == |t| || t[n] == '='))
  {
    var t := Trim(cookie);
    var parts := Split(t, '=');
    JoinSplit(t, '=');
    if |parts| == 1 {
      assert t == parts[0];
    } else {
      var tail := Join(parts[1..], '=');
      assert t == parts[0] + "=" + tail;
      assert t[|parts[0]|] == '=';
      if |parts| == 2 {
        assert tail == parts[1];
        assert t[..|parts[0]| + 1 + |parts[1]|] == t;
      } else {
        assert tail == parts[1] + "=" + Join(parts[2..], '=');
        assert t == parts[0] + "=" + parts[1] + "=" + Join(parts[2..], '=');
        assert t[..|parts[0]| + 1 + |parts[1]|] == parts[0] + "=" + parts[1];
      }
    }
  }

  /** The object the fold builds: own property name to value. */
  type Cookies = map<string, Option<string>>

  /** `acc[key] = value`. On a plain object `__proto__` is an accessor whose
      setter ignores a string or undefined, so that assignment changes nothing. */
  function Assign(acc: Cookies, e: Entry): Cookies
  {
    if e.key == "__proto__" then acc else acc[e.key := e.value]
  }

  /** `cookies.reduce((acc, cookie) => ..., acc)`, left to right. */
  function Fold(acc: Cookies, cookies: seq<string>): Cookies
    decreases |cookies|
  {
    if cookies == [] then acc else Fold(Assign(acc, ParseEntry(cookies[0])), cookies[1..])
  }

  /** `document.cookie.split(';').reduce(..., {})` */
  function Parse(documentCookie: string): Cookies
  {
    Fold(map[], Split(documentCookie, ';'))
  }

  /** `cookies.refreshToken`: undefined when no entry has that key. */
  function RefreshToken(documentCookie: string): Option<string>
  {
    var m := Parse(documentCookie);
    if "refreshToken" in m then m["refreshToken"] else None
  }

  /** The last entry with key `k` decides the value of `k` (a later duplicate
      overwrites an earlier one). */
  lemma {:induction false} FoldLastWins(acc: Cookies, cookies: seq<string>, k: string, i: nat)
    requires i < |cookies| && ParseEntry(cookies[i]).key == k && k != "__proto__"
    requires forall j :: i < j < |cookies| ==> ParseEntry(cookies[j]).key != k
    ensures k in Fold(acc, cookies) && Fold(acc, cookies)[k] == ParseEntry(cookies[i]).value
    decreases |cookies|
  {
    var next := Assign(acc, ParseEntry(cookies[0]));
    if i == 0 {
      FoldKeeps(next, cookies[1..], k);
    } else {
      FoldLastWins(next, cookies[1..], k, i - 1);
    }
  }

  /** A key that no entry carries keeps whatever the accumulator had. */
  lemma {:induction false} FoldKeeps(acc: Cookies, cookies: seq<string>, k: string)
    requires forall j :: 0 <= j < |cookies| ==> ParseEntry(cookies[j]).key != k
    ensures (k in Fold(acc, cookies)) == (k in acc)
    ensures k in acc ==> Fold(acc, cookies)[k] == acc[k]
    decreases |cookies|
  {
    if cookies != [] {
      FoldKeeps(Assign(acc, ParseEntry(cookies[0])), cookies[1..], k);
    }
  }

  /** `__proto__` never becomes an own property, whatever the entries say. */
  lemma {:induction false} FoldSkipsProto(acc: Cookies, cookies: seq<string>)
    ensures ("__proto__" in Fold(acc, cookies)) == ("__proto__" in acc)
    decreases |cookies|
  {
    if cookies != [] {
      FoldSkipsProto(Assign(acc, ParseEntry(cookies[0])), cookies[1..]);
    }
  }

  /** With no `refreshToken` entry the refresh token is undefined. */
  lemma RefreshTokenAbsent(documentCookie: string)
    requires forall j :: 0 <= j < |Split(documentCookie, ';')| ==> ParseEntry(Split(documentCookie, ';')[j]).key != "refreshToken"
    ensures RefreshToken(documentCookie) == None
  {
    FoldKeeps(map[], Split(documentCookie, ';'), "refreshToken");
  }

  /** The refresh token is the value of the last `refreshToken` entry. */
  lemma RefreshTokenIsLastEntry(documentCookie: string, i: nat)
    requires i < |Split(documentCookie, ';')| && ParseEntry(Split(documentCookie, ';')[i]).key == "refreshToken"
    requires forall j :: i < j < |Split(documentCookie, ';')| ==> ParseEntry(Split(documentCookie, ';')[j]).key != "refreshToken"
    ensures RefreshToken(documentCookie) == ParseEntry(Split(documentCookie, ';')[i]).value
  {
    FoldLastWins(map[], Split(documentCookie, ';'), "refreshToken", i);
  }
}
