/**
 * The bounded activity log of the control panel (`bot_state['logs']`): at most
 * thirty entries, oldest dropped first, and the `logs[-limit:]` view of it.
 */
module LogRing {

  const LOG_CAPACITY: nat := 30

  datatype Level = Info | Success | Warning | Error

  datatype LogEntry = LogEntry(timestamp: string, message: string, level: Level)

  /** `s if len(s) <= n else s[-n:]`: the newest `n` elements, in their order. */
  function KeepLast<T>(s: seq<T>, n: nat): seq<T> {
    if |s| > n then s[|s| - n..] else s
  }

  /** The kept part is a suffix of `s` of length `min(|s|, n)`. */
  lemma KeepLastSuffix<T>(s: seq<T>, n: nat)
    ensures |KeepLast(s, n)| == if |s| <= n then |s| else n
    ensures KeepLast(s, n) == s[|s| - |KeepLast(s, n)|..]
  {
  }

  /** Truncating after every append is the same as truncating once at the end. */
  lemma KeepLastAppend<T>(s: seq<T>, t: seq<T>, n: nat)
    ensures KeepLast(KeepLast(s, n) + t, n) == KeepLast(s + t, n)
  {
    var k := KeepLast(s, n);
    var left := KeepLast(k + t, n);
    var right := KeepLast(s + t, n);
    assert |left| == |right|;
    forall i | 0 <= i < |left|
      ensures left[i] == right[i]
    {
      var j := |k + t| - |left| + i;
      var j' := |s + t| - |right| + i;
      assert left[i] == (k + t)[j];
      assert right[i] == (s + t)[j'];
      if j < |k| {
        assert (k + t)[j] == k[j] == s[|s| - |k| + j];
        assert j' == |s| - |k| + j;
      } else {
        assert (k + t)[j] == t[j - |k|];
        assert j' - |s| == j - |k|;
      }
    }
  }

  /** The log after calling `add_log` once per entry of `entries`, in order. */
  function Appended<T>(logs: seq<T>, entries: seq<T>, n: nat): seq<T>
    decreases |entries|
  {
    if entries == [] then logs
    else Appended(KeepLast(logs + [entries[0]], n), entries[1..], n)
  }

  /**
   * Starting from a log within capacity, however many entries are appended one
   * by one, the log is exactly the newest
   * `n` of everything appended, in order; appending 35 to an empty log keeps
   * the last 30.
   */
  lemma {:induction false} AppendedKeepsNewest<T>(logs: seq<T>, entries: seq<T>, n: nat)
    requires |logs| <= n
    ensures Appended(logs, entries, n) == KeepLast(logs + entries, n)
    decreases |entries|
  {
    if entries == [] {
      assert logs + entries == logs;
    } else {
      var first := logs + [entries[0]];
      var rest := entries[1..];
      var next := KeepLast(first, n);
      assert Appended(logs, entries, n) == Appended(next, rest, n);
      assert Appended(next, rest, n) == KeepLast(next + rest, n) by {
        AppendedKeepsNewest(next, rest, n);
      }
      assert KeepLast(next + rest, n) == KeepLast(first + rest, n) by {
        KeepLastAppend(first, rest, n);
      }
      assert first + rest == logs + entries by {
        ConsSeq(logs, entries);
      }
    }
  }

  lemma ConsSeq<T>(s: seq<T>, t: seq<T>)
    requires t != []
    ensures s + [t[0]] + t[1..] == s + t
  {
    assert [t[0]] + t[1..] == t;
  }

  /**
   * Python's `s[-limit:]`: always a suffix of `s`; for a positive limit the newest
   * `min(limit, len(s))` elements, for zero the whole of `s` (because `-0 == 0`),
   * and for a negative limit `s` without its first `-limit` elements.
   */
  function TailSlice<T>(s: seq<T>, limit: int): (r: seq<T>)
    ensures |r| <= |s| && r == s[|s| - |r|..]
    ensures limit > 0 ==> |r| == if limit < |s| then limit else |s|
    ensures limit == 0 ==> r == s
    ensures limit < 0 ==> |r| == if |s| + limit > 0 then |s| + limit else 0
  {
    var start := -limit;
    var from := if start < 0 then (if |s| + start > 0 then |s| + start else 0)
                else (if start < |s| then start else |s|);
    assert 0 <= from <= |s|;
    s[from..]
  }
}
