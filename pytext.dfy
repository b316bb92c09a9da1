/**
 * The parts of Python's `str` behaviour the bot relies on, over `seq<char>`.
 *
 * Modelling assumptions: `\d` is the ASCII digits, `\w` the ASCII letters and digits
 * plus `_`, and `lower()` folds only `A`-`Z`. Whitespace (`\s`, `strip()`, `int()`)
 * is the full set for which Python's `str.isspace()` holds.
 */
module PyText {

  predicate IsDigit(c: char) { '0' <= c <= '9' }

  predicate IsWord(c: char) { IsDigit(c) || 'a' <= c <= 'z' || 'A' <= c <= 'Z' || c == '_' }

  /**
   * The characters for which `str.isspace()` holds: the ASCII controls
   * tab..carriage return and the separators 0x1C..0x1F, space, NEL,
   * no-break space, ogham space, the typographic spaces 0x2000..0x200A,
   * the line and paragraph separators, and the three other Unicode spaces.
   */
  predicate IsSpace(c: char) {
    || ('\t' <= c <= '\r') || ('\U{1C}' <= c <= ' ') || c == '\U{85}' || c == '\U{A0}' || c == '\U{1680}'
    || ('\U{2000}' <= c <= '\U{200A}') || c == '\U{2028}' || c == '\U{2029}' || c == '\U{202F}' || c == '\U{205F}' || c == '\U{3000}'
  }

  /** No ASCII letter, digit or `_` is whitespace. */
  lemma WordNotSpace(c: char)
    requires IsWord(c)
    ensures !IsSpace(c)
  {
  }

  /** Every character of `s` is whitespace (written recursively to keep proofs cheap). */
  predicate AllSpace(s: string) {
    s == [] || (IsSpace(s[0]) && AllSpace(s[1..]))
  }

  lemma {:induction false} AllSpaceLast(s: string)
    requires AllSpace(s) && s != []
    ensures IsSpace(s[|s| - 1]) && AllSpace(s[..|s| - 1])
  {
    if |s| > 1 {
      AllSpaceLast(s[1..]);
      assert s[1..][..|s| - 2] == s[..|s| - 1][1..];
    }
  }

  function LowerChar(c: char): char {
    if 'A' <= c <= 'Z' then (c as int + 32) as char else c
  }

  /** `s.lower()` restricted to ASCII letters. */
  function Lower(s: string): (r: string)
    ensures |r| == |s|
    ensures forall i :: 0 <= i < |s| ==> r[i] == LowerChar(s[i])
  {
    seq(|s|, i requires 0 <= i < |s| => LowerChar(s[i]))
  }

  predicate StartsWith(s: string, prefix: string) {
    |prefix| <= |s| && s[..|prefix|] == prefix
  }

  /** `sub in s` */
  predicate Contains(s: string, sub: string) {
    exists i :: 0 <= i <= |s| && StartsWith(s[i..], sub)
  }

  /** `s.lstrip()` */
  function TrimStart(s: string): (r: string)
    ensures |r| <= |s| && r == s[|s| - |r|..]
    ensures r == [] || !IsSpace(r[0])
  {
    if |s| > 0 && IsSpace(s[0]) then TrimStart(s[1..]) else s
  }

  /** `s.rstrip()` */
  function TrimEnd(s: string): (r: string)
    ensures |r| <= |s| && r == s[..|r|]
    ensures r == [] || !IsSpace(r[|r| - 1])
  {
    if |s| > 0 && IsSpace(s[|s| - 1]) then TrimEnd(s[..|s| - 1]) else s
  }

  predicate IsStripped(s: string) {
    s == [] || (!IsSpace(s[0]) && !IsSpace(s[|s| - 1]))
  }

  /** `s.strip()`: the result neither starts nor ends with whitespace. */
  function Strip(s: string): (r: string)
    ensures IsStripped(r)
  {
    TrimEnd(TrimStart(s))
  }

  /** `strip()` keeps a slice of its argument, so it adds no character. */
  lemma StripMembers(s: string, c: char)
    requires c in Strip(s)
    ensures c in s
  {
    var t := TrimStart(s);
    assert Strip(s) == t[..|Strip(s)|];
    assert c in t;
    assert t == s[|s| - |t|..];
  }

  lemma StripStripped(s: string)
    requires IsStripped(s)
    ensures Strip(s) == s
  {
  }

  lemma {:induction false} TrimStartPadded(a: string, x: string)
    requires AllSpace(a)
    ensures TrimStart(a + x) == TrimStart(x)
  {
    if a != [] {
      assert (a + x)[0] == a[0];
      assert (a + x)[1..] == a[1..] + x;
      TrimStartPadded(a[1..], x);
    } else {
      assert a + x == x;
    }
  }

  lemma {:induction false} TrimEndPadded(x: string, b: string)
    requires AllSpace(b)
    ensures TrimEnd(x + b) == TrimEnd(x)
  {
    if b != [] {
      AllSpaceLast(b);
      assert (x + b)[|x + b| - 1] == b[|b| - 1];
      assert (x + b)[..|x + b| - 1] == x + b[..|b| - 1];
      TrimEndPadded(x, b[..|b| - 1]);
    } else {
      assert x + b == x;
    }
  }

  lemma {:induction false} TrimStartAppend(x: string, b: string)
    requires AllSpace(b)
    ensures AllSpace(x) ==> TrimStart(x + b) == TrimStart(b)
    ensures !AllSpace(x) ==> TrimStart(x + b) == TrimStart(x) + b
  {
    if x != [] {
      assert (x + b)[0] == x[0];
      assert (x + b)[1..] == x[1..] + b;
      if IsSpace(x[0]) {
        TrimStartAppend(x[1..], b);
      }
    } else {
      assert x + b == b;
    }
  }

  lemma {:induction false} TrimStartAllSpace(b: string)
    requires AllSpace(b)
    ensures TrimStart(b) == []
  {
    if b != [] {
      TrimStartAllSpace(b[1..]);
    }
  }

  /**
   * Surrounding whitespace does not change what `strip()` returns, which is why
   * `" yes\n".lower().strip()` and `"yes"` classify alike.
   */
  lemma StripPadded(a: string, x: string, b: string)
    requires AllSpace(a) && AllSpace(b)
    ensures Strip(a + x + b) == Strip(x)
  {
    assert a + x + b == a + (x + b);
    TrimStartPadded(a, x + b);
    TrimStartAppend(x, b);
    if AllSpace(x) {
      TrimStartAllSpace(b);
      TrimStartAllSpace(x);
    } else {
      TrimEndPadded(TrimStart(x), b);
    }
  }

  /** `s.split(sep)`: the pieces between occurrences of `sep`; never empty. */
  function Split(s: string, sep: char): (r: seq<string>)
    ensures |r| >= 1
    ensures forall i :: 0 <= i < |r| ==> sep !in r[i]
  {
    if |s| == 0 then [""]
    else
      var rest := Split(s[1..], sep);
      if s[0] == sep then [""] + rest
      else [[s[0]] + rest[0]] + rest[1..]
  }

  /** `sep.join(pieces)` */
  function Join(pieces: seq<string>, sep: char): string {
    if |pieces| == 0 then ""
    else if |pieces| == 1 then pieces[0]
    else pieces[0] + [sep] + Join(pieces[1..], sep)
  }

  /** Splitting and joining again gives back the original string. */
  lemma {:induction false} JoinSplit(s: string, sep: char)
    ensures Join(Split(s, sep), sep) == s
  {
    if |s| > 0 {
      var rest := Split(s[1..], sep);
      JoinSplit(s[1..], sep);
      if s[0] != sep && |rest| > 1 {
        assert rest == [rest[0]] + rest[1..];
        assert Join(rest, sep) == rest[0] + [sep] + Join(rest[1..], sep);
      }
    }
  }

  lemma {:induction false} SplitPrefix(x: string, t: string, sep: char)
    requires sep !in x
    ensures Split(x + t, sep) == [x + Split(t, sep)[0]] + Split(t, sep)[1..]
  {
    var st := Split(t, sep);
    if x != [] {
      assert (x + t)[0] == x[0] && x[0] != sep;
      assert (x + t)[1..] == x[1..] + t;
      SplitPrefix(x[1..], t, sep);
      assert [x[0]] + (x[1..] + st[0]) == x + st[0];
    } else {
      assert x + t == t;
      assert x + st[0] == st[0];
      assert st == [st[0]] + st[1..];
    }
  }

  /** Joining separator-free pieces and splitting again gives back the pieces. */
  lemma {:induction false} SplitJoin(pieces: seq<string>, sep: char)
    requires |pieces| >= 1
    requires forall i :: 0 <= i < |pieces| ==> sep !in pieces[i]
    ensures Split(Join(pieces, sep), sep) == pieces
  {
    if |pieces| == 1 {
      SplitPrefix(pieces[0], "", sep);
      assert pieces[0] + "" == pieces[0];
    } else {
      var tail := Join(pieces[1..], sep);
      var u := [sep] + tail;
      assert Join(pieces, sep) == pieces[0] + u;
      assert Split(u, sep) == [""] + pieces[1..] by {
        SplitJoin(pieces[1..], sep);
        assert u[0] == sep && u[1..] == tail;
      }
      SplitPrefix(pieces[0], u, sep);
      assert pieces[0] + "" == pieces[0];
      ConsSlice(pieces);
    }
  }

  lemma ConsSlice<T>(s: seq<T>)
    requires s != []
    ensures [s[0]] + s[1..] == s
  {
  }

  /** A list element as `update_config` stores it: non-empty, stripped, comma-free. */
  predicate IsCleanItem(s: string) {
    s != [] && IsStripped(s) && ',' !in s
  }

  function CleanPieces(pieces: seq<string>): seq<string> {
    if pieces == [] then []
    else
      var head := Strip(pieces[0]);
      (if head != [] then [head] else []) + CleanPieces(pieces[1..])
  }

  lemma {:induction false} CleanPiecesClean(pieces: seq<string>)
    requires forall i :: 0 <= i < |pieces| ==> ',' !in pieces[i]
    ensures forall i :: 0 <= i < |CleanPieces(pieces)| ==> IsCleanItem(CleanPieces(pieces)[i])
  {
    if pieces != [] {
      CleanPiecesClean(pieces[1..]);
      if ',' in Strip(pieces[0]) {
        StripMembers(pieces[0], ',');
      }
    }
  }

  lemma {:induction false} CleanPiecesOfClean(items: seq<string>)
    requires forall i :: 0 <= i < |items| ==> IsCleanItem(items[i])
    ensures CleanPieces(items) == items
  {
    if items != [] {
      var rest := items[1..];
      assert forall i :: 0 <= i < |rest| ==> IsCleanItem(rest[i]) by {
        forall i | 0 <= i < |rest| ensures IsCleanItem(rest[i]) {
          assert rest[i] == items[i + 1];
        }
      }
      CleanPiecesOfClean(rest);
      CleanPiecesCons(items);
    }
  }

  lemma CleanPiecesCons(items: seq<string>)
    requires items != [] && IsCleanItem(items[0])
    ensures CleanPieces(items) == [items[0]] + CleanPieces(items[1..])
  {
    StripStripped(items[0]);
  }

  /**
   * `[p.strip() for p in s.split(',') if p.strip()]`: every element is a
   * non-empty, stripped, comma-free piece of `s`, in order.
   */
  function CommaList(s: string): (r: seq<string>)
    ensures forall i :: 0 <= i < |r| ==> IsCleanItem(r[i])
  {
    CleanPiecesClean(Split(s, ','));
    CleanPieces(Split(s, ','))
  }

  /** A list of clean items survives being written as a comma-joined string. */
  lemma CommaListJoin(items: seq<string>)
    requires forall i :: 0 <= i < |items| ==> IsCleanItem(items[i])
    ensures CommaList(Join(items, ',')) == items
  {
    if items == [] {
      CommaListEmpty();
    } else {
      CommaListJoinNonEmpty(items);
    }
  }

  lemma CommaListJoinNonEmpty(items: seq<string>)
    requires items != [] && forall i :: 0 <= i < |items| ==> IsCleanItem(items[i])
    ensures CommaList(Join(items, ',')) == items
  {
    var s := Join(items, ',');
    SplitJoinItems(items);
    CleanPiecesOfClean(items);
  }

  lemma SplitJoinItems(items: seq<string>)
    requires items != [] && forall i :: 0 <= i < |items| ==> IsCleanItem(items[i])
    ensures Split(Join(items, ','), ',') == items
  {
    CleanCommaFree(items);
    SplitJoin(items, ',');
  }

  lemma CleanCommaFree(items: seq<string>)
    requires forall i :: 0 <= i < |items| ==> IsCleanItem(items[i])
    ensures forall i :: 0 <= i < |items| ==> ',' !in items[i]
  {
  }

  lemma CommaListEmpty()
    ensures CommaList("") == []
  {
    assert Split("", ',') == [""];
    assert Strip("") == "";
  }

  /** Normalising a normalised list again changes nothing. */
  lemma CommaListIdempotent(s: string)
    ensures CommaList(Join(CommaList(s), ',')) == CommaList(s)
  {
    CommaListJoin(CommaList(s));
  }

  function DigitChar(d: nat): (c: char)
    requires d < 10
    ensures IsDigit(c)
  {
    ('0' as int + d) as char
  }

  /** `str(n)` for a natural number: decimal digits without a leading zero. */
  function NatToString(n: nat): (r: string)
    ensures |r| >= 1
    ensures forall i :: 0 <= i < |r| ==> IsDigit(r[i])
    ensures r[0] == '0' ==> n == 0
  {
    if n < 10 then [DigitChar(n)] else NatToString(n / 10) + [DigitChar(n % 10)]
  }

  /** `str(n)` for any integer: a minus sign before the digits of a negative number. */
  function IntToString(n: int): (r: string)
    ensures |r| >= 1
    ensures r[0] == '-' <==> n < 0
  {
    if n < 0 then "-" + NatToString(-n) else NatToString(n)
  }
}
