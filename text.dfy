/** The handful of Python `str` operations the core relies on: `strip`, `lower`,
    `in`, `split(sep)[k]`, `str(n)`, `sep.join(parts)` and `split(c)`, together with
    the code-fence extraction applied to every language-model reply. */
module Text {
  import opened Wrappers

  // ---------------------------------------------------------------------------
  // Whitespace and strip
  // ---------------------------------------------------------------------------

  /** Python's `str.isspace()` over the ASCII range (the information separators
      U+001C..U+001F are whitespace for Python too). */
  predicate IsSpace(c: char) {
    c == ' ' || c == '\t' || c == '\n' || c == '\r' || c == '\U{000B}' || c == '\U{000C}'
    || ('\U{001C}' <= c <= '\U{001F}')
  }

  function TrimStart(s: string): (r: string)
    ensures |r| <= |s| && r == s[|s| - |r|..]
    ensures r != [] ==> !IsSpace(r[0])
    ensures forall i :: 0 <= i < |s| - |r| ==> IsSpace(s[i])
  {
    if s != [] && IsSpace(s[0]) then TrimStart(s[1..]) else s
  }

  function TrimEnd(s: string): (r: string)
    ensures |r| <= |s| && r == s[..|r|]
    ensures r != [] ==> !IsSpace(r[|r| - 1])
    ensures forall i :: |r| <= i < |s| ==> IsSpace(s[i])
  {
    if s != [] && IsSpace(s[|s| - 1]) then TrimEnd(s[..|s| - 1]) else s
  }

  /** Where `Strip(s)` starts inside `s`. */
  function StripOffset(s: string): nat
    ensures StripOffset(s) <= |s|
  {
    |s| - |TrimStart(s)|
  }

  /** Python's `s.strip()`: `s` without its leading and trailing whitespace. */
  function Strip(s: string): (r: string)
    ensures StripOffset(s) + |r| <= |s| && r == s[StripOffset(s)..StripOffset(s) + |r|]
    ensures r != [] ==> !IsSpace(r[0]) && !IsSpace(r[|r| - 1])
    ensures forall i :: 0 <= i < StripOffset(s) ==> IsSpace(s[i])
    ensures forall i :: StripOffset(s) + |r| <= i < |s| ==> IsSpace(s[i])
  {
    TrimEnd(TrimStart(s))
  }

  /** A string with no whitespace at either end is its own strip. */
  lemma StripOfStripped(s: string)
    requires s != [] ==> !IsSpace(s[0]) && !IsSpace(s[|s| - 1])
    ensures Strip(s) == s
  {
    assert TrimStart(s) == s;
    assert TrimEnd(s) == s;
  }

  /** Stripping twice is stripping once. */
  lemma StripIdempotent(s: string)
    ensures Strip(Strip(s)) == Strip(s)
  {
    StripOfStripped(Strip(s));
  }

  // ---------------------------------------------------------------------------
  // Case
  // ---------------------------------------------------------------------------

  /** Python's `str.lower()` on one character, over the ASCII letters. */
  function LowerChar(c: char): char {
    if 'A' <= c <= 'Z' then (c as int - 'A' as int + 'a' as int) as char else c
  }

  function Lower(s: string): (r: string)
    ensures |r| == |s| && forall i :: 0 <= i < |s| ==> r[i] == LowerChar(s[i])
  {
    seq(|s|, i requires 0 <= i < |s| => LowerChar(s[i]))
  }

  // ---------------------------------------------------------------------------
  // Substrings: `in`, find, split pieces
  // ---------------------------------------------------------------------------

  /** `sub` starts at position `i` of `s`. */
  predicate OccursAt(s: string, sub: string, i: int) {
    0 <= i && i + |sub| <= |s| && s[i..i + |sub|] == sub
  }

  /** Python's `sub in s`. */
  predicate Contains(s: string, sub: string) {
    exists i | 0 <= i <= |s| :: OccursAt(s, sub, i)
  }

  /** The first occurrence of `sub` at or after position `k` (`s.find(sub, k)`). */
  function FindFrom(s: string, sub: string, k: nat): (r: Option<nat>)
    requires k <= |s|
    ensures r.Some? ==> k <= r.value && OccursAt(s, sub, r.value)
    ensures r.Some? ==> forall j :: k <= j < r.value ==> !OccursAt(s, sub, j)
    ensures r.None? ==> forall j :: k <= j ==> !OccursAt(s, sub, j)
    decreases |s| - k
  {
    if k + |sub| > |s| then None
    else if s[k..k + |sub|] == sub then Some(k)
    else if k == |s| then None
    else FindFrom(s, sub, k + 1)
  }

  /** The first occurrence of `sub` in `s`, present exactly when `sub in s`. */
  function Find(s: string, sub: string): (r: Option<nat>)
    ensures r.Some? <==> Contains(s, sub)
    ensures r.Some? ==> OccursAt(s, sub, r.value)
    ensures r.Some? ==> forall j :: 0 <= j < r.value ==> !OccursAt(s, sub, j)
  {
    FindFrom(s, sub, 0)
  }

  /** Where the next `sub` starts at or after `k`, or the end of `s`. */
  function NextOr(s: string, sub: string, k: nat): (r: nat)
    requires k <= |s|
    ensures k <= r <= |s|
  {
    match FindFrom(s, sub, k)
    case Some(j) => j
    case None => |s|
  }

  /** Searching a suffix is searching the whole from where the suffix starts. */
  lemma {:induction false} FindShift(t: string, sub: string, k: nat, m: nat)
    requires k + m <= |t|
    ensures FindFrom(t, sub, k + m) == match FindFrom(t[k..], sub, m) case Some(j) => Some(k + j) case None => None
    decreases |t| - k - m
  {
    if k + m + |sub| <= |t| {
      assert t[k..][m..m + |sub|] == t[k + m..k + m + |sub|];
      if t[k + m..k + m + |sub|] != sub && k + m < |t| {
        FindShift(t, sub, k, m + 1);
      }
    }
  }

  lemma NextOrShift(t: string, sub: string, k: nat)
    requires k <= |t|
    ensures NextOr(t, sub, k) == k + NextOr(t[k..], sub, 0)
  {
    FindShift(t, sub, k, 0);
  }

  /** An occurrence inside a slice of `s` is an occurrence in `s`. */
  lemma OccursInSlice(s: string, a: nat, b: nat, sub: string, j: int)
    requires a <= b <= |s| && OccursAt(s[a..b], sub, j)
    ensures OccursAt(s, sub, a + j)
  {
    var t := s[a..b];
    assert forall k | 0 <= k < |sub| :: s[a + j + k] == t[j + k] == sub[k];
  }

  /** A slice of a string that does not contain `sub` does not contain it either. */
  lemma NotContainsSlice(s: string, a: nat, b: nat, sub: string)
    requires a <= b <= |s| && !Contains(s, sub)
    ensures !Contains(s[a..b], sub)
  {
    if Contains(s[a..b], sub) {
      var j :| 0 <= j <= |s[a..b]| && OccursAt(s[a..b], sub, j);
      OccursInSlice(s, a, b, sub, j);
    }
  }

  /** `s.split(sep)[0]`: the text before the first `sep`, or all of `s`. */
  function Before(s: string, sep: string): string {
    s[..NextOr(s, sep, 0)]
  }

  /** The text before the first `sep` holds no `sep`. */
  lemma BeforeIsFree(s: string, sep: string)
    requires sep != []
    ensures !Contains(Before(s, sep), sep)
  {
    var i := NextOr(s, sep, 0);
    if Contains(s[..i], sep) {
      var j :| 0 <= j <= i && OccursAt(s[..i], sep, j);
      OccursInSlice(s, 0, i, sep, j);
    }
  }

  /** Without a `sep`, `s.split(sep)[0]` is all of `s`. */
  lemma BeforeAbsent(s: string, sep: string)
    requires !Contains(s, sep)
    ensures Before(s, sep) == s
  {
  }

  /** `s.split(sep)[1]` for an `s` that contains `sep`: the text after the first
      `sep` up to the next `sep` (searched from the end of the first), or to the end. */
  function Second(s: string, sep: string): (r: string)
    requires Contains(s, sep)
  {
    var i := Find(s, sep).value;
    Before(s[i + |sep|..], sep)
  }

  // ---------------------------------------------------------------------------
  // Code-fence extraction of language-model replies
  // ---------------------------------------------------------------------------

  const Fence := "```"

  /** The segment of `t` from the end of its first `opener` to the next `opener`
      (or the end), cut at the first fence inside that segment. */
  function Fenced(t: string, opener: string): string
    requires Contains(t, opener)
  {
    var k := Find(t, opener).value + |opener|;
    var segment := t[k..NextOr(t, opener, k)];
    segment[..NextOr(segment, Fence, 0)]
  }

  /** The text after the first fence of `t`, up to the second fence or the end. */
  function BetweenFences(t: string): string
    requires Contains(t, Fence)
  {
    var k := Find(t, Fence).value + |Fence|;
    t[k..NextOr(t, Fence, k)]
  }

  /** The reply post-processing shared by the planner, the synthesizer and the SQL
      generator: strip the reply; if it holds "```" + tag take the stripped text
      between that opener and the next fence, else if it holds a bare "```" take the
      stripped text between the first two fences, else keep the stripped reply. The
      body follows the Python `split` calls; the contract names the positions. */
  function StripFence(raw: string, tag: string): (r: string)
    ensures !Contains(Strip(raw), Fence) ==> r == Strip(raw)
    // The tagged opener is preferred: the text after its first occurrence.
    ensures Contains(Strip(raw), Fence + tag) ==> r == Strip(Fenced(Strip(raw), Fence + tag))
    // Otherwise the text between the first two fences, or after the only one.
    ensures !Contains(Strip(raw), Fence + tag) && Contains(Strip(raw), Fence) ==>
      r == Strip(BetweenFences(Strip(raw)))
    ensures Contains(Strip(raw), Fence) ==> !Contains(r, Fence)
    ensures Strip(r) == r
  {
    var t := Strip(raw);
    OpenerHoldsFence(t, tag);
    StripIdempotent(raw);
    if Contains(t, Fence + tag) then Cut(t, Fence + tag)
    else if Contains(t, Fence) then
      BareFenced(t);
      Cut(t, Fence)
    else t
  }

  /** `t.split(opener)[1].split("```")[0].strip()`. */
  function Cut(t: string, opener: string): (r: string)
    requires Contains(t, opener)
    ensures r == Strip(Fenced(t, opener)) && !Contains(r, Fence) && Strip(r) == r
  {
    SplitPieces(t, opener);
    BeforeIsFree(Second(t, opener), Fence);
    FencelessStrip(Before(Second(t, opener), Fence))
  }

  /** `t[k:].split(sub)[0]` is the text from `k` up to the next `sub`. */
  lemma BeforeOfSuffix(t: string, sub: string, k: nat)
    requires k <= |t|
    ensures Before(t[k..], sub) == t[k..NextOr(t, sub, k)]
  {
    NextOrShift(t, sub, k);
  }

  /** `t.split(opener)[1].split("```")[0]` is `Fenced(t, opener)`. */
  lemma SplitPieces(t: string, opener: string)
    requires Contains(t, opener)
    ensures Before(Second(t, opener), Fence) == Fenced(t, opener)
  {
    SecondIsSlice(t, opener);
  }

  /** `t.split(opener)[1]` runs from the end of the first opener to the next one. */
  lemma SecondIsSlice(t: string, opener: string)
    requires Contains(t, opener)
    ensures var k := Find(t, opener).value + |opener|;
      Second(t, opener) == t[k..NextOr(t, opener, k)]
  {
    BeforeOfSuffix(t, opener, Find(t, opener).value + |opener|);
  }

  /** With the bare fence as opener, no fence lies before the next one: the text
      runs up to the second fence. */
  lemma BareFenced(t: string)
    requires Contains(t, Fence)
    ensures Fenced(t, Fence) == BetweenFences(t)
  {
    var k := Find(t, Fence).value + |Fence|;
    var o := NextOr(t, Fence, k);
    match FindFrom(t[k..o], Fence, 0)
    case None =>
    case Some(j) =>
      OccursInSlice(t, k, o, Fence, j);
      assert false;
  }

  /** Wherever "```" + tag occurs, "```" occurs. */
  lemma OpenerHoldsFence(t: string, tag: string)
    ensures Contains(t, Fence + tag) ==> Contains(t, Fence)
  {
    if Contains(t, Fence + tag) {
      var i :| 0 <= i <= |t| && OccursAt(t, Fence + tag, i);
      assert t[i..i + 3] == (Fence + tag)[..3];
      assert OccursAt(t, Fence, i);
    }
  }

  /** Strip of a fence-free text: still fence-free, and stripped. */
  function FencelessStrip(s: string): (r: string)
    requires !Contains(s, Fence)
    ensures r == Strip(s) && !Contains(r, Fence) && Strip(r) == r
  {
    var r := Strip(s);
    var a := StripOffset(s);
    assert r == s[a..a + |r|];
    NotContainsSlice(s, a, a + |r|, Fence);
    StripIdempotent(s);
    r
  }

  /** A reply that is exactly one fenced block, "```" + tag + body + "```", yields its
      stripped body, provided the tag is not empty and neither it nor the body holds
      a backtick. */
  lemma {:induction false} StripFenceRoundTrip(tag: string, body: string)
    requires tag != [] && '`' !in tag && '`' !in body
    ensures StripFence(Fence + tag + body + Fence, tag) == Strip(body)
  {
    var raw := Fence + tag + body + Fence;
    var opener := Fence + tag;
    StripOfStripped(raw);
    assert Strip(raw) == raw;
    OpenerLeads(tag, body);
    assert Contains(raw, opener);
    assert raw[|opener|..] == body + Fence;
    RestHasNoOpener(tag, body);
    BeforeAbsent(body + Fence, opener);
    assert Second(raw, opener) == body + Fence;
    BeforeFenceOfBody(body);
    assert Before(Second(raw, opener), Fence) == body;
  }

  lemma OpenerLeads(tag: string, body: string)
    ensures Find(Fence + tag + body + Fence, Fence + tag) == Some(0)
  {
    assert OccursAt(Fence + tag + body + Fence, Fence + tag, 0);
  }

  /** After the opener only the body and the closing fence remain, and the opener
      cannot start there. */
  lemma RestHasNoOpener(tag: string, body: string)
    requires tag != [] && '`' !in body
    ensures !Contains(body + Fence, Fence + tag)
  {
    if Contains(body + Fence, Fence + tag) {
      var j :| 0 <= j <= |body + Fence| && OccursAt(body + Fence, Fence + tag, j);
      NoBacktickFenceFree(body, j, Fence + tag);
    }
  }

  /** A fence cannot start inside a backtick-free prefix. */
  lemma NoBacktickFenceFree(body: string, j: int, opener: string)
    requires '`' !in body && |opener| >= 3 && opener[..3] == Fence
    requires 0 <= j && j + |opener| <= |body + Fence| && (body + Fence)[j..j + |opener|] == opener
    ensures j == |body| && |opener| == 3
  {
    var s := body + Fence;
    assert s[j] == opener[0] == '`';
    if j < |body| {
      assert false;
    }
  }

  /** Text without a backtick holds no fence, and neither does its strip. */
  lemma NoBacktickNoFence(s: string)
    requires '`' !in s
    ensures !Contains(s, Fence) && !Contains(Strip(s), Fence)
  {
    forall i | 0 <= i <= |s| ensures !OccursAt(s, Fence, i) {
      if i + |Fence| <= |s| {
        assert s[i..i + |Fence|][0] == s[i];
      }
    }
    var t := Strip(s);
    forall i | 0 <= i <= |t| ensures !OccursAt(t, Fence, i) {
      if i + |Fence| <= |t| {
        assert t[i..i + |Fence|][0] == t[i] == s[StripOffset(s) + i];
      }
    }
  }

  /** The first character of an occurrence. */
  lemma OccurrenceHead(s: string, sub: string, i: int)
    requires |sub| > 0 && OccursAt(s, sub, i)
    ensures s[i] == sub[0]
  {
    assert s[i..i + |sub|][0] == s[i];
  }

  lemma BeforeFenceOfBody(body: string)
    requires '`' !in body
    ensures Before(body + Fence, Fence) == body
  {
    var s := body + Fence;
    assert OccursAt(s, Fence, |body|);
    var f := Find(s, Fence);
    OccurrenceHead(s, Fence, f.value);
    if f.value < |body| {
      assert false;
    }
  }

  // ---------------------------------------------------------------------------
  // Concatenation and slices
  // ---------------------------------------------------------------------------

  lemma Assoc(a: string, b: string, c: string)
    ensures a + b + c == a + (b + c)
  {
  }

  /** The middle part of a three-part concatenation sits right after the first. */
  lemma InMiddle(a: string, m: string, b: string)
    ensures (a + m + b)[|a|..|a| + |m|] == m
  {
  }

  /** An occurrence inside an occurrence. */
  lemma SliceTrans(s: string, t: string, u: string, i: nat, j: nat)
    requires i + |t| <= |s| && s[i..i + |t|] == t
    requires j + |u| <= |t| && t[j..j + |u|] == u
    ensures s[i + j..i + j + |u|] == u
  {
    assert forall k :: 0 <= k < |u| ==> s[i + j + k] == t[j + k] == u[k];
  }

  // ---------------------------------------------------------------------------
  // Decimal rendering: `str(n)` for n >= 0
  // ---------------------------------------------------------------------------

  function DigitChar(d: nat): (c: char)
    requires d < 10
    ensures '0' <= c <= '9'
  {
    ('0' as int + d) as char
  }

  predicate AllDigits(s: string) {
    forall i :: 0 <= i < |s| ==> '0' <= s[i] <= '9'
  }

  /** Python's `str(n)`: decimal digits, no leading zero. */
  function NatToString(n: nat): (r: string)
    ensures |r| >= 1 && AllDigits(r)
    ensures |r| > 1 ==> r[0] != '0'
  {
    if n < 10 then [DigitChar(n)] else NatToString(n / 10) + [DigitChar(n % 10)]
  }

  /** Python's `int(s)` for a string of ASCII digits. */
  function ParseNat(s: string): nat
    requires AllDigits(s)
  {
    if s == [] then 0 else 10 * ParseNat(s[..|s| - 1]) + (s[|s| - 1] as int - '0' as int)
  }

  /** `int(str(n)) == n`. */
  lemma {:induction false} ParseNatToString(n: nat)
    ensures ParseNat(NatToString(n)) == n
  {
    var s := NatToString(n);
    if n < 10 {
      assert s[..0] == [];
    } else {
      assert s[..|s| - 1] == NatToString(n / 10);
      ParseNatToString(n / 10);
    }
  }

  /** Distinct numbers have distinct decimal texts. */
  lemma NatToStringInjective(a: nat, b: nat)
    requires NatToString(a) == NatToString(b)
    ensures a == b
  {
    ParseNatToString(a);
    ParseNatToString(b);
  }

  // ---------------------------------------------------------------------------
  // Join and split
  // ---------------------------------------------------------------------------

  /** Python's `sep.join(parts)`. */
  function Join(parts: seq<string>, sep: string): string {
    if |parts| == 0 then ""
    else if |parts| == 1 then parts[0]
    else parts[0] + sep + Join(parts[1..], sep)
  }

  /** A character in neither the parts nor the separator is not in the join. */
  lemma {:induction false} JoinFree(parts: seq<string>, sep: string, c: char)
    requires c !in sep
    requires forall i :: 0 <= i < |parts| ==> c !in parts[i]
    ensures c !in Join(parts, sep)
  {
    if |parts| > 1 {
      JoinFree(parts[1..], sep, c);
    }
  }

  /** Python's `s.split(c)` for a one-character separator. */
  function SplitOn(s: string, c: char): (r: seq<string>)
    ensures |r| >= 1
  {
    if s == [] then [""]
    else
      var rest := SplitOn(s[1..], c);
      if s[0] == c then [""] + rest else [[s[0]] + rest[0]] + rest[1..]
  }

  lemma {:induction false} SplitOnFree(p: string, c: char)
    requires c !in p
    ensures SplitOn(p, c) == [p]
  {
    if p != [] {
      SplitOnFree(p[1..], c);
      assert [p[0]] + p[1..] == p;
    }
  }

  lemma {:induction false} SplitOnAfterFree(p: string, c: char, t: string)
    requires c !in p
    ensures SplitOn(p + [c] + t, c) == [p] + SplitOn(t, c)
  {
    if p == [] {
      assert p + [c] + t == [c] + t;
      assert ([c] + t)[1..] == t;
    } else {
      var s := p + [c] + t;
      assert s[1..] == p[1..] + [c] + t;
      assert s[0] == p[0] && p[0] in p;
      SplitOnAfterFree(p[1..], c, t);
      assert [p[0]] + p[1..] == p;
    }
  }

  /** Splitting a join on its one-character separator gives the parts back, when
      no part holds the separator. */
  lemma {:induction false} SplitJoin(parts: seq<string>, c: char)
    requires |parts| >= 1
    requires forall i :: 0 <= i < |parts| ==> c !in parts[i]
    ensures SplitOn(Join(parts, [c]), c) == parts
  {
    if |parts| == 1 {
      SplitOnFree(parts[0], c);
    } else {
      SplitJoin(parts[1..], c);
      SplitOnAfterFree(parts[0], c, Join(parts[1..], [c]));
      assert [parts[0]] + parts[1..] == parts;
    }
  }
}
