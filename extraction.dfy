/**
 * What the Telegram message handler pulls out of a message from the
 * temporary-mail bot: an e-mail address, and a six-digit verification code.
 *
 * Each regular expression is modelled the way Python's `re.search` runs it
 * (try every start position from the left; at a start, greedy repetitions
 * that give characters back one at a time until the rest of the pattern
 * fits), and is then proved equal to a declarative description of the text
 * it finds. Character classes follow the ASCII assumptions of `PyText`.
 */
module Extraction {
  import opened Wrappers
  import opened PyText

  // ---------------------------------------------------------------------------
  // Scanning primitives

  /** Every character of `s[lo..hi]` belongs to the class. */
  predicate Run(s: string, lo: int, hi: int, inClass: char -> bool) {
    0 <= lo <= hi <= |s| && forall k :: lo <= k < hi ==> inClass(s[k])
  }

  /** Where a greedy `[class]*` starting at `i` stops: the end of the longest run. */
  function RunEnd(s: string, i: nat, inClass: char -> bool): (r: nat)
    requires i <= |s|
    ensures i <= r <= |s| && Run(s, i, r, inClass)
    ensures r == |s| || !inClass(s[r])
    decreases |s| - i
  {
    if i < |s| && inClass(s[i]) then RunEnd(s, i + 1, inClass) else i
  }

  /** No run from `i` is longer than the greedy one, and one that stops before a non-member is it. */
  lemma RunEndMaximal(s: string, i: nat, h: int, inClass: char -> bool)
    requires i <= |s| && Run(s, i, h, inClass)
    ensures h <= RunEnd(s, i, inClass)
    ensures h < |s| && !inClass(s[h]) ==> h == RunEnd(s, i, inClass)
  {
    var r := RunEnd(s, i, inClass);
  }

  // ---------------------------------------------------------------------------
  // The e-mail address: `[\w\.-]+@[\w\.-]+\.\w+`

  /** `[\w\.-]` */
  predicate EmailChar(c: char) { IsWord(c) || c == '.' || c == '-' }

  /**
   * `s[i..j]` is an address: a local part in `[\w\.-]+`, `@` at `a`, a domain
   * `[\w\.-]+` up to the dot at `p`, and a final label in `\w+`.
   */
  predicate EmailSplit(s: string, i: int, a: int, p: int, j: int) {
    0 <= i < a && a + 1 < p && p + 1 < j <= |s|
    && s[a] == '@' && s[p] == '.'
    && Run(s, i, a, EmailChar) && Run(s, a + 1, p, EmailChar) && Run(s, p + 1, j, IsWord)
  }

  /** `s[i..j]` matches the address pattern. */
  ghost predicate EmailAt(s: string, i: int, j: int) {
    exists a, p :: EmailSplit(s, i, a, p, j)
  }

  /** The message contains an address somewhere. */
  ghost predicate HasEmail(s: string) {
    exists i, j :: EmailAt(s, i, j)
  }

  /** `s[i..j]` is the address `re.search` reports: the leftmost start, and the longest match there. */
  ghost predicate FirstEmail(s: string, i: int, j: int) {
    && EmailAt(s, i, j)
    && (forall k, l :: k < i ==> !EmailAt(s, k, l))
    && (forall l :: j < l ==> !EmailAt(s, i, l))
  }

  /** A `\.` followed by a `\w`: the only places where the domain's `[\w\.-]+` may give characters back to. */
  predicate DotBeforeWord(s: string, p: int) {
    0 <= p && p + 1 < |s| && s[p] == '.' && IsWord(s[p + 1])
  }

  /**
   * Backtracking of the domain's `[\w\.-]+`: the dot positions are tried from
   * `p` down to `lo`, and the first one followed by a word character wins.
   */
  function Backtrack(s: string, lo: nat, p: int): (r: Option<nat>)
    requires p <= |s|
    ensures r.Some? ==> lo <= r.value <= p && DotBeforeWord(s, r.value)
    ensures r.Some? ==> forall q :: r.value < q <= p ==> !DotBeforeWord(s, q)
    ensures r.None? ==> forall q :: lo <= q <= p ==> !DotBeforeWord(s, q)
    decreases p
  {
    if p < lo then None
    else if DotBeforeWord(s, p) then Some(p)
    else Backtrack(s, lo, p - 1)
  }

  /** The end of the match that the pattern, tried at start `i`, finds, if any. */
  function MatchAt(s: string, i: nat): (r: Option<nat>)
    ensures r.Some? ==> i < r.value <= |s|
  {
    if i > |s| then None
    else
      var a := RunEnd(s, i, EmailChar);
      if a == i || a == |s| || s[a] != '@' then None
      else
        var hi := RunEnd(s, a + 1, EmailChar);
        match Backtrack(s, a + 2, hi)
        case None => None
        case Some(p) => Some(RunEnd(s, p + 1, IsWord))
  }

  /**
   * Tried at `i`, the pattern finds a match exactly when an address starts at
   * `i`, and the match it finds is the longest such address.
   */
  lemma MatchAtSpec(s: string, i: nat)
    ensures MatchAt(s, i).Some? ==> EmailAt(s, i, MatchAt(s, i).value)
    ensures MatchAt(s, i).Some? ==> forall j :: EmailAt(s, i, j) ==> j <= MatchAt(s, i).value
    ensures MatchAt(s, i).None? ==> forall j :: !EmailAt(s, i, j)
  {
    if i <= |s| {
      var a := RunEnd(s, i, EmailChar);
      if a != i && a != |s| && s[a] == '@' {
        var hi := RunEnd(s, a + 1, EmailChar);
        var found := Backtrack(s, a + 2, hi);
        if found.Some? {
          var p := found.value;
          var j := RunEnd(s, p + 1, IsWord);
          assert IsWord(s[p + 1]);
          assert EmailSplit(s, i, a, p, j);
        }
      }
      forall j | EmailAt(s, i, j)
        ensures MatchAt(s, i).Some? && j <= MatchAt(s, i).value
      {
        var a', p' :| EmailSplit(s, i, a', p', j);
        RunEndMaximal(s, i, a', EmailChar);
        assert a' == a;
        RunEndMaximal(s, a + 1, p', EmailChar);
        assert IsWord(s[p' + 1]);
        assert DotBeforeWord(s, p');
        var p := Backtrack(s, a + 2, RunEnd(s, a + 1, EmailChar)).value;
        if p == p' {
          RunEndMaximal(s, p + 1, j, IsWord);
        } else {
          assert !IsWord(s[p]);
          assert j <= p;
        }
      }
    }
  }

  // ---------------------------------------------------------------------------
  // Searching

  /** The three patterns the handler searches for. */
  datatype Pattern = Address | PrimaryCode | FallbackCode

  /** The pattern, as the engine runs it, matches at start `i`. */
  predicate MatchesAt(pattern: Pattern, s: string, i: nat) {
    match pattern
    case Address => MatchAt(s, i).Some?
    case PrimaryCode => PrimaryMatch(s, i)
    case FallbackCode => FallbackAt(s, i)
  }

  /**
   * `re.search`: the first start `from, from + 1, ..., |s|` at which the
   * pattern matches.
   */
  function Search(pattern: Pattern, s: string, from: nat): (r: Option<nat>)
    requires from <= |s| + 1
    ensures r.Some? ==> from <= r.value <= |s| && MatchesAt(pattern, s, r.value)
    ensures r.Some? ==> forall k: nat :: from <= k < r.value ==> !MatchesAt(pattern, s, k)
    ensures r.None? ==> forall k: nat :: from <= k <= |s| ==> !MatchesAt(pattern, s, k)
    decreases |s| + 1 - from
  {
    if from == |s| + 1 then None
    else if MatchesAt(pattern, s, from) then Some(from)
    else Search(pattern, s, from + 1)
  }

  /** `any(keyword in message.lower() for keyword in [...])`: the message announces an address. */
  predicate EmailAnnounced(message: string) {
    var lower := Lower(message);
    Contains(lower, "temporary email") || Contains(lower, "new email") || Contains(lower, "generated")
  }

  /** The address the handler stores, if the message announces one and contains one. */
  function ExtractEmail(message: string): (r: Option<string>)
    ensures r.Some? ==> EmailAnnounced(message)
  {
    if !EmailAnnounced(message) then None
    else
      match Search(Address, message, 0)
      case None => None
      case Some(i) => Some(message[i..MatchAt(message, i).value])
  }

  /**
   * An address is extracted exactly when the message announces one and
   * contains one, and it is the leftmost, longest address in the message.
   */
  lemma ExtractEmailSpec(message: string)
    ensures ExtractEmail(message).Some? <==> EmailAnnounced(message) && HasEmail(message)
    ensures forall i, j :: EmailAnnounced(message) && FirstEmail(message, i, j) ==>
              ExtractEmail(message) == Some(message[i..j])
  {
    var s := message;
    var found := Search(Address, s, 0);
    forall k: nat, l | k <= |s| && (found.None? || k < found.value)
      ensures !EmailAt(s, k, l)
    {
      assert !MatchesAt(Address, s, k);
      MatchAtSpec(s, k);
    }
    forall k: nat, l | k > |s|
      ensures !EmailAt(s, k, l)
    {
    }
    if found.Some? {
      var i0 := found.value;
      MatchAtSpec(s, i0);
      var j0 := MatchAt(s, i0).value;
      assert EmailAt(s, i0, j0);
      forall i, j | FirstEmail(s, i, j)
        ensures i == i0 && j == j0
      {
        assert j <= j0;
      }
    } else {
      assert !HasEmail(s);
    }
  }

  // ---------------------------------------------------------------------------
  // The verification code: `(\d{6})\s+is your verification code`, else `\b(\d{6})\b`

  const CODE_LENGTH: nat := 6
  const CODE_PHRASE: string := "is your verification code"

  /** `\d{6}` at `i`. */
  predicate SixDigits(s: string, i: int) {
    0 <= i && i + CODE_LENGTH <= |s| && Run(s, i, i + CODE_LENGTH, IsDigit)
  }

  /** `\s+` from the end of the digits at `i` up to `k`, where the phrase starts. */
  predicate PhraseAfterSpace(s: string, i: int, k: int) {
    var lo := i + CODE_LENGTH;
    lo < k && Run(s, lo, k, IsSpace) && StartsWith(s[k..], CODE_PHRASE)
  }

  /** The primary pattern matches at `i` (declarative: some amount of whitespace works). */
  ghost predicate PrimaryAt(s: string, i: int) {
    SixDigits(s, i) && exists k :: PhraseAfterSpace(s, i, k)
  }

  /**
   * The primary pattern tried at `i` as the engine runs it: the greedy `\s+`
   * takes all the whitespace, and the phrase must follow.
   */
  predicate PrimaryMatch(s: string, i: nat) {
    SixDigits(s, i)
    && var k := RunEnd(s, i + CODE_LENGTH, IsSpace);
       k > i + CODE_LENGTH && StartsWith(s[k..], CODE_PHRASE)
  }

  /** Giving whitespace back never helps, because the phrase starts with a non-space. */
  lemma PrimaryMatchSpec(s: string, i: nat)
    ensures PrimaryMatch(s, i) <==> PrimaryAt(s, i)
  {
    if SixDigits(s, i) {
      var lo := i + CODE_LENGTH;
      var k := RunEnd(s, lo, IsSpace);
      if PrimaryMatch(s, i) {
        assert PhraseAfterSpace(s, i, k);
      }
      if PrimaryAt(s, i) {
        var k' :| PhraseAfterSpace(s, i, k');
        assert s[k'] == s[k'..][0] == 'i';
        RunEndMaximal(s, lo, k', IsSpace);
      }
    }
  }

  /** `\b`: a word character on exactly one side of position `k`. */
  predicate WordBoundary(s: string, k: int) {
    0 <= k <= |s| && ((k > 0 && IsWord(s[k - 1])) != (k < |s| && IsWord(s[k])))
  }

  /** `\b(\d{6})\b` at `i`. */
  predicate FallbackAt(s: string, i: int) {
    SixDigits(s, i) && WordBoundary(s, i) && WordBoundary(s, i + CODE_LENGTH)
  }

  /**
   * The fallback pattern finds exactly the six-digit numbers that stand alone:
   * neither preceded nor followed by a letter, digit or `_`.
   */
  lemma FallbackStandsAlone(s: string, i: int)
    ensures FallbackAt(s, i) <==>
      SixDigits(s, i) && (i == 0 || !IsWord(s[i - 1])) && (i + CODE_LENGTH == |s| || !IsWord(s[i + CODE_LENGTH]))
  {
    if SixDigits(s, i) {
      assert IsDigit(s[i]) && IsDigit(s[i + CODE_LENGTH - 1]);
    }
  }

  ghost predicate HasPrimary(s: string) { exists i :: PrimaryAt(s, i) }

  ghost predicate HasFallback(s: string) { exists i :: FallbackAt(s, i) }

  ghost predicate FirstPrimary(s: string, i: int) {
    PrimaryAt(s, i) && forall k :: 0 <= k < i ==> !PrimaryAt(s, k)
  }

  ghost predicate FirstFallback(s: string, i: int) {
    FallbackAt(s, i) && forall k :: 0 <= k < i ==> !FallbackAt(s, k)
  }

  /** `'verification' in message.lower()`: the condition on the fallback. */
  predicate CodeAnnounced(message: string) {
    Contains(Lower(message), "verification")
  }

  /** The code the handler stores, if any: the primary pattern first, else the gated fallback. */
  function ExtractCode(message: string): (r: Option<string>)
    ensures r.Some? ==> |r.value| == CODE_LENGTH && forall k :: 0 <= k < |r.value| ==> IsDigit(r.value[k])
  {
    match Search(PrimaryCode, message, 0)
    case Some(i) => Some(message[i..i + CODE_LENGTH])
    case None =>
      if !CodeAnnounced(message) then None
      else
        match Search(FallbackCode, message, 0)
        case Some(i) => Some(message[i..i + CODE_LENGTH])
        case None => None
  }

  /**
   * A code is extracted exactly when the primary pattern occurs, or the message
   * mentions verification and a stand-alone six-digit number occurs; it is the
   * leftmost primary match, and only without one the leftmost fallback match.
   */
  lemma ExtractCodeSpec(message: string)
    ensures ExtractCode(message).Some? <==>
      HasPrimary(message) || (CodeAnnounced(message) && HasFallback(message))
    ensures forall i :: FirstPrimary(message, i) ==> ExtractCode(message) == Some(message[i..i + CODE_LENGTH])
    ensures forall i :: !HasPrimary(message) && CodeAnnounced(message) && FirstFallback(message, i) ==>
              ExtractCode(message) == Some(message[i..i + CODE_LENGTH])
  {
    PrimarySearch(message);
    FallbackSearch(message);
  }

  /** The search for the primary pattern finds the leftmost place where it occurs. */
  lemma PrimarySearch(s: string)
    ensures Search(PrimaryCode, s, 0).None? <==> !HasPrimary(s)
    ensures forall i :: FirstPrimary(s, i) ==> Search(PrimaryCode, s, 0) == Some(i)
  {
    var found := Search(PrimaryCode, s, 0);
    forall k: nat | k <= |s|
      ensures MatchesAt(PrimaryCode, s, k) <==> PrimaryAt(s, k)
    {
      PrimaryMatchSpec(s, k);
    }
    if found.Some? {
      var i0 := found.value;
      assert PrimaryAt(s, i0);
      forall i | FirstPrimary(s, i)
        ensures i == i0
      {
      }
    } else {
      forall i | 0 <= i
        ensures !PrimaryAt(s, i)
      {
        if i <= |s| {
          assert !MatchesAt(PrimaryCode, s, i);
        }
      }
    }
  }

  /** The search for the fallback pattern finds the leftmost stand-alone six-digit number. */
  lemma FallbackSearch(s: string)
    ensures Search(FallbackCode, s, 0).None? <==> !HasFallback(s)
    ensures forall i :: FirstFallback(s, i) ==> Search(FallbackCode, s, 0) == Some(i)
  {
    var found := Search(FallbackCode, s, 0);
    if found.Some? {
      var i0 := found.value;
      assert FallbackAt(s, i0);
      forall i | FirstFallback(s, i)
        ensures i == i0
      {
        assert MatchesAt(FallbackCode, s, i);
      }
    } else {
      forall i | 0 <= i
        ensures !FallbackAt(s, i)
      {
        if i <= |s| {
          assert !MatchesAt(FallbackCode, s, i);
        }
      }
    }
  }
}
