/** The JavaScript string operations the translators use, over `seq<char>`. */
module Text {
  import opened Wrappers

  // ---------- white space ----------

  /** What `String.prototype.trim` removes: ECMAScript white space and line terminators. */
  predicate IsSpace(c: char) {
    var n := c as int;
    || 9 <= n <= 13 || n == 32 || n == 0xA0 || n == 0x1680 || 0x2000 <= n <= 0x200A
    || n == 0x2028 || n == 0x2029 || n == 0x202F || n == 0x205F || n == 0x3000 || n == 0xFEFF
  }

  predicate AllSpace(s: string) {
    forall i :: 0 <= i < |s| ==> IsSpace(s[i])
  }

  function TrimStart(s: string): string {
    if s != "" && IsSpace(s[0]) then TrimStart(s[1..]) else s
  }

  function TrimEnd(s: string): string {
    if s != "" && IsSpace(s[|s| - 1]) then TrimEnd(s[..|s| - 1]) else s
  }

  function Trim(s: string): string {
    TrimEnd(TrimStart(s))
  }

  predicate Trimmed(s: string) {
    s != "" ==> !IsSpace(s[0]) && !IsSpace(s[|s| - 1])
  }

  /** `TrimEnd` removes exactly the trailing white space. */
  lemma {:induction false} TrimEndSplits(s: string) returns (tail: string)
    ensures s == TrimEnd(s) + tail && AllSpace(tail)
    ensures TrimEnd(s) != "" ==> !IsSpace(TrimEnd(s)[|TrimEnd(s)| - 1])
  {
    if s != "" && IsSpace(s[|s| - 1]) {
      var t := TrimEndSplits(s[..|s| - 1]);
      tail := t + [s[|s| - 1]];
    } else {
      tail := "";
    }
  }

  lemma {:induction false} TrimEndDropsSpace(s: string, tail: string)
    requires AllSpace(tail)
    ensures TrimEnd(s + tail) == TrimEnd(s)
  {
    if tail == "" {
      assert s + tail == s;
    } else {
      var n := |tail| - 1;
      assert (s + tail)[..|s + tail| - 1] == s + tail[..n];
      TrimEndDropsSpace(s, tail[..n]);
    }
  }

  /** Text that starts with a non-space keeps its start under `trim`. */
  lemma TrimKeepsHead(s: string)
    requires s != "" && !IsSpace(s[0])
    ensures Trim(s) == TrimEnd(s)
  {
  }

  lemma TrimLine(s: string, tail: string)
    requires Trimmed(s) && AllSpace(tail)
    ensures Trim(s + tail) == s
  {
    if s == "" {
      assert s + tail == tail;
      TrimStartOfSpace(tail);
    } else {
      assert (s + tail)[0] == s[0];
      TrimEndDropsSpace(s, tail);
    }
  }

  lemma {:induction false} TrimEndIsShorter(s: string)
    ensures |TrimEnd(s)| <= |s| && TrimEnd(s) <= s
  {
    if s != "" && IsSpace(s[|s| - 1]) {
      TrimEndIsShorter(s[..|s| - 1]);
    }
  }

  lemma {:induction false} TrimStartIsShorter(s: string)
    ensures |TrimStart(s)| <= |s| && (TrimStart(s) != "" ==> !IsSpace(TrimStart(s)[0]))
  {
    if s != "" && IsSpace(s[0]) {
      TrimStartIsShorter(s[1..]);
    }
  }

  lemma TrimIsTrimmed(s: string)
    ensures Trimmed(Trim(s)) && |Trim(s)| <= |s|
  {
    TrimStartIsShorter(s);
    TrimEndIsShorter(TrimStart(s));
    var _ := TrimEndSplits(TrimStart(s));
  }

  lemma {:induction false} TrimStartOfSpace(s: string)
    requires AllSpace(s)
    ensures TrimStart(s) == ""
  {
    if s != "" {
      TrimStartOfSpace(s[1..]);
    }
  }

  lemma {:induction false} TrimStartConcat(s: string, tail: string)
    requires !AllSpace(s)
    ensures TrimStart(s + tail) == TrimStart(s) + tail
  {
    if IsSpace(s[0]) {
      assert (s + tail)[1..] == s[1..] + tail;
      assert s == [s[0]] + s[1..];
      TrimStartConcat(s[1..], tail);
    }
  }

  /** White space at the end makes no difference to `trim`. */
  lemma TrimDropsEnd(s: string, tail: string)
    requires AllSpace(tail)
    ensures Trim(s + tail) == Trim(s)
  {
    if AllSpace(s) {
      TrimStartOfSpace(s);
      TrimStartOfSpace(s + tail);
    } else {
      TrimStartConcat(s, tail);
      TrimEndDropsSpace(TrimStart(s), tail);
    }
  }

  lemma TrimOfTrimEnd(s: string)
    ensures Trim(TrimEnd(s)) == Trim(s)
  {
    var tail := TrimEndSplits(s);
    TrimDropsEnd(TrimEnd(s), tail);
  }

  lemma TrimStays(s: string)
    requires Trimmed(s)
    ensures Trim(s) == s
  {
    TrimLine(s, "");
    assert s + "" == s;
  }

  lemma TrimEndNonBlank(l: string)
    requires l != "" && !IsSpace(l[0])
    ensures TrimEnd(l) != "" && TrimEnd(l)[0] == l[0] && TrimEnd(l) <= l
    ensures Trim(l) == TrimEnd(l) && !IsSpace(TrimEnd(l)[|TrimEnd(l)| - 1])
  {
    var tail := TrimEndSplits(l);
    assert TrimEnd(l) == "" ==> l == tail;
    TrimKeepsHead(l);
  }

  lemma TrimIsEmpty(s: string)
    ensures Trim(s) == "" <==> AllSpace(s)
  {
    if AllSpace(s) {
      TrimStartOfSpace(s);
    } else {
      TrimStartIsShorter(s);
      assert TrimStart(s) != "" by {
        if TrimStart(s) == "" { TrimStartEmpty(s); }
      }
      TrimEndNonBlank(TrimStart(s));
    }
  }

  lemma {:induction false} TrimStartEmpty(s: string)
    requires TrimStart(s) == ""
    ensures AllSpace(s)
  {
    if s != "" {
      TrimStartEmpty(s[1..]);
      assert forall i :: 1 <= i < |s| ==> s[i] == s[1..][i - 1];
    }
  }

  /** A cut and trimmed text is the text itself exactly when it fits and is trimmed. */
  lemma TakeBack(t: string, k: nat)
    ensures Trim(Take(t, k)) == t <==> |t| <= k && Trimmed(t)
  {
    TrimIsTrimmed(Take(t, k));
    if |t| <= k && Trimmed(t) { TrimStays(t); }
  }

  // ---------- split and join ----------

  function Split(s: string, c: char): (parts: seq<string>)
    ensures |parts| >= 1
  {
    if s == "" then [""]
    else
      var rest := Split(s[1..], c);
      if s[0] == c then [""] + rest else [[s[0]] + rest[0]] + rest[1..]
  }

  function Join(parts: seq<string>, sep: string): string {
    if |parts| == 0 then ""
    else if |parts| == 1 then parts[0]
    else parts[0] + sep + Join(parts[1..], sep)
  }

  predicate Without(s: string, c: char) {
    forall i :: 0 <= i < |s| ==> s[i] != c
  }

  /** Splitting loses nothing. */
  lemma {:induction false} JoinOfSplit(s: string, c: char)
    ensures Join(Split(s, c), [c]) == s
  {
    if s != "" {
      var rest := Split(s[1..], c);
      JoinOfSplit(s[1..], c);
      assert s == [s[0]] + s[1..];
      if s[0] == c {
        assert ([""] + rest)[1..] == rest;
      } else if |rest| > 1 {
        assert ([[s[0]] + rest[0]] + rest[1..])[1..] == rest[1..];
      }
    }
  }

  lemma {:induction false} SplitOfPrefix(a: string, c: char, s: string)
    requires Without(a, c)
    ensures Split(a + [c] + s, c) == [a] + Split(s, c)
  {
    var whole := a + [c] + s;
    if a == "" {
      assert whole[1..] == s;
    } else {
      assert whole[1..] == a[1..] + [c] + s;
      SplitOfPrefix(a[1..], c, s);
      assert whole[0] == a[0] != c;
      assert [a[0]] + a[1..] == a;
    }
  }

  lemma {:induction false} SplitOfWhole(a: string, c: char)
    requires Without(a, c)
    ensures Split(a, c) == [a]
  {
    if a != "" {
      SplitOfWhole(a[1..], c);
      assert a[0] != c;
      assert [a[0]] + a[1..] == a;
    }
  }

  /** What one more character makes of the parts of a text. */
  function Longer(parts: seq<string>, x: char, c: char): seq<string>
    requires |parts| >= 1
  {
    var n := |parts| - 1;
    if x == c then parts + [""] else parts[..n] + [parts[n] + [x]]
  }

  lemma LongerTail(head: string, rest: seq<string>, x: char, c: char)
    requires |rest| >= 1
    ensures Longer([head] + rest, x, c) == [head] + Longer(rest, x, c)
    ensures |rest| > 1 || x == c ==> Longer([head + rest[0]] + rest[1..], x, c)
                                     == [head + Longer(rest, x, c)[0]] + Longer(rest, x, c)[1..]
    ensures |rest| == 1 && x != c ==> Longer([head + rest[0]] + rest[1..], x, c) == [head + rest[0] + [x]]
  {
  }

  /** One more character either starts a new last part or lengthens the last one. */
  lemma {:induction false} SplitSnoc(s: string, x: char, c: char)
    ensures Split(s + [x], c) == Longer(Split(s, c), x, c)
  {
    if s == "" {
      assert s + [x] == [x] && [x][1..] == "" && [x] + "" == "" + [x];
    } else {
      assert (s + [x])[1..] == s[1..] + [x];
      SplitSnoc(s[1..], x, c);
      var rest := Split(s[1..], c);
      LongerTail([s[0]], rest, x, c);
      LongerTail("", rest, x, c);
      if |rest| == 1 && x != c {
        assert [s[0]] + (rest[0] + [x]) == [s[0]] + rest[0] + [x];
      }
    }
  }

  lemma {:induction false} SplitParts(s: string, c: char)
    ensures forall i :: 0 <= i < |Split(s, c)| ==> Without(Split(s, c)[i], c)
  {
    if s != "" {
      SplitParts(s[1..], c);
    }
  }

  /** Joining separator-free parts loses nothing either. */
  lemma {:induction false} SplitOfJoin(parts: seq<string>, c: char)
    requires |parts| >= 1
    requires forall i :: 0 <= i < |parts| ==> Without(parts[i], c)
    ensures Split(Join(parts, [c]), c) == parts
  {
    if |parts| == 1 {
      SplitOfWhole(parts[0], c);
    } else {
      SplitOfJoin(parts[1..], c);
      SplitOfPrefix(parts[0], c, Join(parts[1..], [c]));
    }
  }

  // ---------- substring and padding ----------

  /** A present, non-empty text. */
  predicate Truthy(o: Option<string>) {
    o.Some? && o.value != ""
  }

  /** `o?.substring(0, n)` */
  function TakeIf(o: Option<string>, n: nat): Option<string> {
    if o.Some? then Some(Take(o.value, n)) else None
  }

  /** `o ?? default` */
  function OrElse(o: Option<string>, default: string): string {
    if o.Some? then o.value else default
  }

  /** `a ?? b` of two optional texts. */
  function FirstOf(a: Option<string>, b: Option<string>): Option<string> {
    if a.Some? then a else b
  }

  /** `lines?.slice(0, n)` */
  function FirstLines(lines: Option<seq<string>>, n: nat): Option<seq<string>> {
    if lines.Some? && |lines.value| > n then Some(lines.value[..n]) else lines
  }

  /** `s.substring(0, n)` */
  function Take(s: string, n: nat): (r: string)
  {
    if |s| <= n then s else s[..n]
  }

  function Fill(c: char, n: int): (r: string)
    ensures |r| == if n < 0 then 0 else n
    ensures forall i :: 0 <= i < |r| ==> r[i] == c
  {
    if n <= 0 then "" else seq(n, _ => c)
  }

  function PadEnd(s: string, n: nat): string {
    s + Fill(' ', n - |s|)
  }

  function PadStart(s: string, n: nat, c: char): string {
    Fill(c, n - |s|) + s
  }

  /** `s.startsWith(prefix)` */
  predicate StartsWith(s: string, prefix: string) {
    prefix <= s
  }
}
