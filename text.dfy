/**
 * The string operations of Rust's standard library that the system relies
 * on, over strings as sequences of characters: `str::lines`,
 * `str::split_whitespace`, `str::contains`, `[String]::join`,
 * `str::replace` of one character by nothing, and `Path::join` /
 * `Path::extension` on paths written as strings.
 */
module Text {

  datatype Option<+T> = None | Some(value: T)

  /** `char::is_whitespace`: the Unicode White_Space property. */
  predicate IsWhitespace(c: char) {
    || c == ' ' || c == '\t' || c == '\n' || c == '\r' || c == '\U{0B}' || c == '\U{0C}'
    || c == '\U{85}' || c == '\U{A0}' || c == '\U{1680}'
    || ('\U{2000}' <= c <= '\U{200A}')
    || c == '\U{2028}' || c == '\U{2029}' || c == '\U{202F}' || c == '\U{205F}' || c == '\U{3000}'
  }

  /** A non-empty run of characters none of which is whitespace. */
  predicate IsWord(w: string) {
    |w| > 0 && forall i :: 0 <= i < |w| ==> !IsWhitespace(w[i])
  }

  /** A non-empty string of visible ASCII characters is one word. */
  lemma VisibleWord(w: string)
    requires |w| > 0 && forall i :: 0 <= i < |w| ==> '!' <= w[i] <= '~'
    ensures IsWord(w)
  {
  }

  /** A string of printable ASCII characters (space included) is a single line. */
  lemma VisibleLine(l: string)
    requires forall i :: 0 <= i < |l| ==> ' ' <= l[i] <= '~'
    ensures SingleLine(l)
  {
  }

  // ---------------------------------------------------------------------------
  // Lines

  /** The position of the first c in s, if any. */
  function IndexOf(s: string, c: char): (r: Option<nat>)
    ensures r.None? <==> c !in s
    ensures r.Some? ==> r.value < |s| && s[r.value] == c && c !in s[..r.value]
  {
    if s == [] then None
    else if s[0] == c then Some(0)
    else
      var r := IndexOf(s[1..], c);
      assert s[1..] == s[..|s|][1..];
      if r.None? then None
      else
        assert s[..r.value + 1] == [s[0]] + s[1..][..r.value];
        Some(r.value + 1)
  }

  /** A line as `str::lines` yields it from the text before a newline: one '\r' just before it is dropped. */
  function StripCr(s: string): string {
    if |s| > 0 && s[|s| - 1] == '\r' then s[..|s| - 1] else s
  }

  /**
   * `str::lines`: the text split at each '\n', with a '\r' right before a
   * '\n' dropped; a final line ending is optional, so a trailing newline
   * does not make an empty last line.
   */
  function Lines(s: string): seq<string>
    decreases |s|
  {
    if s == [] then []
    else match IndexOf(s, '\n')
      case None => [s]
      case Some(i) => [StripCr(s[..i])] + Lines(s[i + 1..])
  }

  /** A line that `str::lines` gives back unchanged: no newline inside, no carriage return at its end. */
  predicate SingleLine(l: string) {
    '\n' !in l && !(|l| > 0 && l[|l| - 1] == '\r')
  }

  lemma AppendAssoc<T>(a: seq<T>, b: seq<T>, c: seq<T>)
    ensures a + b + c == a + (b + c)
  {
  }

  /** Writing lines, each followed by a newline. */
  function Unlines(ls: seq<string>): (s: string)
    ensures |s| >= |ls|
  {
    if ls == [] then [] else ls[0] + "\n" + Unlines(ls[1..])
  }

  /** Writing two runs of lines writes the first, then the second. */
  lemma {:induction false} UnlinesAppend(a: seq<string>, b: seq<string>)
    ensures Unlines(a + b) == Unlines(a) + Unlines(b)
    decreases |a|
  {
    if a == [] {
      assert a + b == b;
    } else {
      assert (a + b)[0] == a[0];
      assert (a + b)[1..] == a[1..] + b;
      UnlinesAppend(a[1..], b);
    }
  }

  /** Reading back written lines gives the same lines. */
  lemma {:induction false} LinesUnlines(ls: seq<string>)
    requires forall i :: 0 <= i < |ls| ==> SingleLine(ls[i])
    ensures Lines(Unlines(ls)) == ls
    decreases |ls|
  {
    if ls != [] {
      assert SingleLine(ls[0]);
      LinesCons(ls[0], Unlines(ls[1..]));
      LinesUnlines(ls[1..]);
    }
  }

  /** A single line followed by a newline is read back as that line, then the rest. */
  lemma LinesCons(l: string, rest: string)
    requires SingleLine(l)
    ensures Lines(l + "\n" + rest) == [l] + Lines(rest)
  {
    var s := l + "\n" + rest;
    assert s == l + ("\n" + rest);
    IndexOfPast(l, "\n" + rest, '\n');
    assert s[..|l|] == l;
    assert s[|l| + 1..] == rest;
  }

  /** Finding c in a + b, when a holds none and b starts with it. */
  lemma IndexOfPast(a: string, b: string, c: char)
    requires c !in a && |b| > 0 && b[0] == c
    ensures IndexOf(a + b, c) == Some(|a|)
  {
    var r := IndexOf(a + b, c);
    assert (a + b)[|a|] == c;
    assert r.Some?;
  }

  // ---------------------------------------------------------------------------
  // Words

  /** The length of the word at the start of s: up to the first whitespace. */
  function WordEnd(s: string): (n: nat)
    ensures n <= |s|
    ensures forall i :: 0 <= i < n ==> !IsWhitespace(s[i])
    ensures n < |s| ==> IsWhitespace(s[n])
  {
    if s == [] || IsWhitespace(s[0]) then 0
    else
      var n := WordEnd(s[1..]);
      assert forall i :: 1 <= i < n + 1 ==> s[i] == s[1..][i - 1];
      n + 1
  }

  /** `str::split_whitespace`: the maximal runs of non-whitespace characters, in order. */
  function Tokens(s: string): (ws: seq<string>)
    ensures forall i :: 0 <= i < |ws| ==> IsWord(ws[i])
    decreases |s|
  {
    if s == [] then []
    else if IsWhitespace(s[0]) then Tokens(s[1..])
    else
      var n := WordEnd(s);
      [s[..n]] + Tokens(s[n..])
  }

  /** `[String]::join(sep)`. */
  function JoinWith(sep: string, ws: seq<string>): string {
    if ws == [] then []
    else if |ws| == 1 then ws[0]
    else ws[0] + sep + JoinWith(sep, ws[1..])
  }

  /** Joining one more word appends the separator and that word. */
  lemma {:induction false} JoinSnoc(sep: string, ws: seq<string>, w: string)
    requires ws != []
    ensures JoinWith(sep, ws + [w]) == JoinWith(sep, ws) + sep + w
    decreases |ws|
  {
    assert (ws + [w])[0] == ws[0];
    if |ws| > 1 {
      assert (ws + [w])[1..] == ws[1..] + [w];
      JoinSnoc(sep, ws[1..], w);
    } else {
      assert (ws + [w])[1..] == [w];
    }
  }

  /** A word followed by whitespace (or nothing) splits off as the first token. */
  lemma TokensCons(w: string, rest: string)
    requires IsWord(w)
    requires rest == [] || IsWhitespace(rest[0])
    ensures Tokens(w + rest) == [w] + Tokens(rest)
  {
    var s := w + rest;
    assert !IsWhitespace(s[0]);
    var n := WordEnd(s);
    assert forall i :: 0 <= i < |w| ==> s[i] == w[i];
    assert |rest| > 0 ==> s[|w|] == rest[0];
    assert n == |w|;
    assert s[..n] == w;
    assert s[n..] == rest;
  }

  /** Words joined with single spaces split back into the same words. */
  lemma {:induction false} TokensOfJoin(ws: seq<string>)
    requires forall i :: 0 <= i < |ws| ==> IsWord(ws[i])
    ensures Tokens(JoinWith(" ", ws)) == ws
    decreases |ws|
  {
    if |ws| == 1 {
      TokensCons(ws[0], []);
      assert ws[0] + [] == ws[0];
    } else if |ws| > 1 {
      var rest := JoinWith(" ", ws[1..]);
      assert JoinWith(" ", ws) == ws[0] + (" " + rest);
      TokensCons(ws[0], " " + rest);
      assert (" " + rest)[1..] == rest;
      TokensOfJoin(ws[1..]);
    }
  }

  // ---------------------------------------------------------------------------
  // Substrings

  /** q occurs in s at position i. */
  predicate OccursAt(s: string, q: string, i: nat) {
    i + |q| <= |s| && s[i..i + |q|] == q
  }

  /** `str::contains` with a string pattern, searched position by position. */
  function Contains(s: string, q: string): bool
    decreases |s|
  {
    if q <= s then true
    else if s == [] then false
    else Contains(s[1..], q)
  }

  /** Contains holds exactly when the pattern occurs at some position. */
  lemma {:induction false} ContainsIff(s: string, q: string)
    ensures Contains(s, q) <==> exists i: nat :: OccursAt(s, q, i)
    decreases |s|
  {
    if q <= s {
      assert OccursAt(s, q, 0);
    } else if s != [] {
      ContainsIff(s[1..], q);
      if exists i: nat :: OccursAt(s[1..], q, i) {
        var i: nat :| OccursAt(s[1..], q, i);
        OccursShift(s, q, i);
      }
      if exists i: nat :: OccursAt(s, q, i) {
        var i: nat :| OccursAt(s, q, i);
        if i == 0 {
          assert false;
        }
        OccursShift(s, q, i - 1);
      }
    }
  }

  /** An occurrence in the tail of s is an occurrence in s, one position later. */
  lemma OccursShift(s: string, q: string, i: nat)
    requires s != []
    ensures OccursAt(s[1..], q, i) <==> OccursAt(s, q, i + 1)
  {
    if i + 1 + |q| <= |s| {
      assert s[1..][i..i + |q|] == s[i + 1..i + 1 + |q|];
    }
  }

  // ---------------------------------------------------------------------------
  // Removing a character

  /** `s.replace(c, "")`: s with every c removed. */
  function RemoveAll(s: string, c: char): (r: string)
    ensures c !in r
    ensures |r| <= |s|
    ensures forall x :: x in r ==> x in s
    decreases |s|
  {
    if s == [] then []
    else (if s[0] == c then [] else [s[0]]) + RemoveAll(s[1..], c)
  }

  /** Removing from a concatenation removes from each part. */
  lemma {:induction false} RemoveAllAppend(a: string, b: string, c: char)
    ensures RemoveAll(a + b, c) == RemoveAll(a, c) + RemoveAll(b, c)
    decreases |a|
  {
    if a == [] {
      assert a + b == b;
    } else {
      assert (a + b)[0] == a[0];
      assert (a + b)[1..] == a[1..] + b;
      RemoveAllAppend(a[1..], b, c);
    }
  }

  /** A string without the character is left as it is. */
  lemma {:induction false} RemoveAllAbsent(s: string, c: char)
    requires c !in s
    ensures RemoveAll(s, c) == s
    decreases |s|
  {
    if s != [] {
      assert s[0] != c;
      assert c !in s[1..];
      RemoveAllAbsent(s[1..], c);
    }
  }

  /** Every other character survives, in order: the result's length counts exactly the characters kept. */
  lemma {:induction false} RemoveAllCount(s: string, c: char)
    ensures |RemoveAll(s, c)| + multiset(s)[c] == |s|
    decreases |s|
  {
    if s != [] {
      RemoveAllCount(s[1..], c);
      assert s == [s[0]] + s[1..];
      assert multiset(s) == multiset([s[0]]) + multiset(s[1..]);
    }
  }

  // ---------------------------------------------------------------------------
  // Paths

  predicate HasSuffix(s: string, suffix: string) {
    |suffix| <= |s| && s[|s| - |suffix|..] == suffix
  }

  /**
   * `Path::join` on paths without trailing components to normalise: an
   * absolute second path replaces the first; otherwise the two are put
   * together with one '/' between them, unless the first is empty or
   * already ends with '/'.
   */
  function PathJoin(base: string, rel: string): (p: string)
    ensures |rel| > 0 && rel[0] == '/' ==> p == rel
    ensures !(|rel| > 0 && rel[0] == '/') ==> HasSuffix(p, rel) && base <= p
  {
    if |rel| > 0 && rel[0] == '/' then rel
    else if base == [] || base[|base| - 1] == '/' then
      assert (base + rel)[|base + rel| - |rel|..] == rel;
      base + rel
    else
      assert (base + "/" + rel)[|base + "/" + rel| - |rel|..] == rel;
      base + "/" + rel
  }

  /** The position of the last c in s, if any. */
  function LastIndexOf(s: string, c: char): (r: Option<nat>)
    ensures r.None? <==> c !in s
    ensures r.Some? ==> r.value < |s| && s[r.value] == c && c !in s[r.value + 1..]
    decreases |s|
  {
    if s == [] then None
    else if s[|s| - 1] == c then Some(|s| - 1)
    else
      var r := LastIndexOf(s[..|s| - 1], c);
      assert s[..|s| - 1] + [s[|s| - 1]] == s;
      if r.None? then None
      else
        assert s[r.value + 1..] == s[..|s| - 1][r.value + 1..] + [s[|s| - 1]];
        r
  }

  /**
   * `Path::extension` of a file name: the text after its last '.', or none
   * when the name has no '.', when its only '.' is the first character, or
   * when the name is "..".
   */
  function Extension(name: string): (e: Option<string>)
    ensures e.Some? ==> '.' !in e.value
  {
    match LastIndexOf(name, '.')
    case None => None
    case Some(i) => if i == 0 || name == ".." then None else Some(name[i + 1..])
  }

  // ---------------------------------------------------------------------------
  // Numbers

  predicate IsDigit(c: char) {
    '0' <= c <= '9'
  }

  function Digit(d: nat): (c: char)
    requires d < 10
    ensures IsDigit(c)
  {
    (48 + d) as char
  }

  /** `format!("{}", n)` for a natural number: its decimal digits, without leading zeros. */
  function Decimal(n: nat): (s: string)
    ensures |s| > 0 && forall i :: 0 <= i < |s| ==> IsDigit(s[i])
    decreases n
  {
    if n < 10 then [Digit(n)] else Decimal(n / 10) + [Digit(n % 10)]
  }

  /** The number a string of decimal digits stands for. */
  function DigitsValue(s: string): nat
    requires forall i :: 0 <= i < |s| ==> IsDigit(s[i])
    decreases |s|
  {
    if s == [] then 0
    else
      assert IsDigit(s[|s| - 1]);
      DigitsValue(s[..|s| - 1]) * 10 + (s[|s| - 1] as int - 48)
  }

  /** Reading back the digits of a number gives the number. */
  lemma {:induction false} DecimalValue(n: nat)
    ensures DigitsValue(Decimal(n)) == n
    decreases n
  {
    if n >= 10 {
      var s := Decimal(n);
      assert s[..|s| - 1] == Decimal(n / 10);
      DecimalValue(n / 10);
    }
  }

  /** Different numbers are written differently. */
  lemma DecimalInjective(n: nat, m: nat)
    requires Decimal(n) == Decimal(m)
    ensures n == m
  {
    DecimalValue(n);
    DecimalValue(m);
  }
}
