/** MemoryMonitor.cpp: admission of native launches by memory state, the state
    names, the page arithmetic of the resident-set size, the /proc/<pid>/status
    scan and the polling timer's bookkeeping. Files are inputs: the status file
    as its whitespace-separated tokens, statm as its parsed resident-page count. */
module Memory {
  import opened Common

  /** MemoryMonitor::MemState, in declaration order. */
  datatype MemState = Normal | Medium | Low | Critical

  function Level(s: MemState): nat {
    match s
    case Normal => 0
    case Medium => 1
    case Low => 2
    case Critical => 3
  }

  const TIMER_MS: int := 5000
  const KB_LABEL: string := "kb"
  const MB_LABEL: string := "mb"
  const PROC_RSS: string := "VmRSS"
  const PROC_SWAP: string := "VmSwap"
  const PAGE_SIZE: int := 4096

  /** allowNewNativeAppLaunch: refused in the Low and Critical states, whatever
      the application asks for. */
  function AllowNewNativeAppLaunch(state: MemState, appMemoryRequirement: int): (r: bool)
    ensures !r <==> Level(state) >= Level(Low)
    ensures r <==> state == Normal || state == Medium
  {
    !(Level(state) >= Level(Low))
  }

  /** Admission is monotone in the memory state and ignores the requirement. */
  lemma AdmissionMonotone(s: MemState, t: MemState, m: int, n: int)
    requires Level(s) <= Level(t) && AllowNewNativeAppLaunch(t, m)
    ensures AllowNewNativeAppLaunch(s, n)
  {
  }

  /** nameForState. */
  function NameForState(state: MemState): (r: string)
    ensures r in {"Normal", "Medium", "Low", "Critical"}
    ensures StateForName(r) == Some(state)
  {
    match state
    case Low => "Low"
    case Critical => "Critical"
    case Medium => "Medium"
    case _ => "Normal"
  }

  /** The reading of a name back into a state. */
  function StateForName(name: string): Option<MemState> {
    if name == "Low" then Some(Low)
    else if name == "Critical" then Some(Critical)
    else if name == "Medium" then Some(Medium)
    else if name == "Normal" then Some(Normal)
    else None
  }

  /** Distinct states are logged under distinct names. */
  lemma NameForStateInjective(s: MemState, t: MemState)
    requires NameForState(s) == NameForState(t)
    ensures s == t
  {
    assert StateForName(NameForState(s)) == Some(s);
  }

  /** (rssSize * 4096) / (1024 * 1024) on int, for a product that stays in range. */
  function RssMegabytes(rssPages: int): (mb: int)
    requires InInt32(rssPages * PAGE_SIZE)
    ensures rssPages >= 0 ==> mb * 1048576 <= rssPages * PAGE_SIZE < (mb + 1) * 1048576
    ensures rssPages >= 0 ==> mb == rssPages / 256
    ensures rssPages < 0 ==> mb <= 0
  {
    TruncDiv(rssPages * PAGE_SIZE, 1024 * 1024)
  }

  // ---------------------------------------------------------------------------
  // The std::ifstream a status file is read through. Failed reads leave the
  // stream failed (and empty here, since nothing after a failure is read).

  datatype Stream = Stream(tokens: seq<string>, good: bool)

  function Chars(tokens: seq<string>): nat {
    if tokens == [] then 0 else |tokens[0]| + Chars(tokens[1..])
  }

  predicate NonEmptyTokens(tokens: seq<string>) {
    forall i :: 0 <= i < |tokens| ==> |tokens[i]| > 0
  }

  predicate IsSuffix(a: seq<string>, b: seq<string>) {
    |a| <= |b| && a == b[|b| - |a|..]
  }

  lemma {:induction false} SuffixChars(a: seq<string>, b: seq<string>)
    requires IsSuffix(a, b)
    ensures Chars(a) <= Chars(b)
    decreases |b|
  {
    if |a| < |b| {
      assert b[1..][|b| - 1 - |a|..] == b[|b| - |a|..];
      SuffixChars(a, b[1..]);
    }
  }

  lemma SuffixNonEmpty(a: seq<string>, b: seq<string>)
    requires IsSuffix(a, b) && NonEmptyTokens(b)
    ensures NonEmptyTokens(a)
  {
    forall i | 0 <= i < |a| ensures |a[i]| > 0 {
      assert a[i] == b[|b| - |a| + i];
    }
  }

  lemma SuffixTrans(a: seq<string>, b: seq<string>, c: seq<string>)
    requires IsSuffix(a, b) && IsSuffix(b, c)
    ensures IsSuffix(a, c)
  {
  }

  /** `status >> word`: the next token, or a failed stream at the end. */
  datatype WordRead = WordRead(next: Stream, word: Option<string>)

  function ReadWord(s: Stream): (r: WordRead)
    ensures r.word.Some? <==> s.good && s.tokens != []
    ensures r.word.Some? ==> r.word.value == s.tokens[0] && r.next == Stream(s.tokens[1..], true)
    ensures r.word.None? ==> r.next == Stream([], false)
  {
    if s.good && s.tokens != [] then WordRead(Stream(s.tokens[1..], true), Some(s.tokens[0]))
    else WordRead(Stream([], false), None)
  }

  predicate IsDigitChar(c: char) {
    '0' <= c <= '9'
  }

  function SignLength(t: string): (n: nat)
    ensures n <= |t|
  {
    if |t| > 0 && (t[0] == '+' || t[0] == '-') then 1 else 0
  }

  /** The number of digits that follow position i. */
  function DigitRun(t: string, i: nat): (n: nat)
    requires i <= |t|
    ensures i + n <= |t|
    ensures forall k :: i <= k < i + n ==> IsDigitChar(t[k])
    ensures i + n < |t| ==> !IsDigitChar(t[i + n])
    decreases |t| - i
  {
    if i < |t| && IsDigitChar(t[i]) then 1 + DigitRun(t, i + 1) else 0
  }

  function Clamp32(v: int): (r: int)
    ensures InInt32(r)
    ensures InInt32(v) ==> r == v
  {
    if v < INT32_MIN then INT32_MIN else if v > INT32_MAX then INT32_MAX else v
  }

  /** The optional sign and the digits after it at the front of a token, as a
      number; None when no digit follows the sign. */
  function LeadingNumber(t: string): (n: Option<int>)
    ensures n.Some? <==> DigitRun(t, SignLength(t)) > 0
    ensures n.Some? && SignLength(t) == 0 ==> n.value >= 0
  {
    var sign := SignLength(t);
    var digits := DigitRun(t, sign);
    if digits == 0 then None
    else
      var magnitude := DecimalToNat(t[sign..sign + digits]);
      Some(if sign == 1 && t[0] == '-' then 0 - magnitude as int else magnitude)
  }

  /** What is left of a token once its leading number is read. */
  function AfterNumber(t: string): (rest: string)
    ensures |rest| < |t| || DigitRun(t, SignLength(t)) == 0
  {
    t[SignLength(t) + DigitRun(t, SignLength(t))..]
  }

  /** `status >> someInt`: at the end of the stream or on a failed stream nothing
      is stored; a token without a leading number stores 0 and fails the
      stream; an out-of-range number stores the nearest limit and fails it;
      otherwise the number is stored and what follows it in the token is the
      next thing read. */
  datatype IntRead = IntRead(next: Stream, stored: Option<int>)

  function ReadInt(s: Stream): (r: IntRead)
    ensures !r.next.good ==> r.next.tokens == []
    ensures r.next.good ==> Chars(r.next.tokens) < Chars(s.tokens)
    ensures r.stored.None? <==> !s.good || s.tokens == []
    ensures !s.good ==> !r.next.good
    ensures s.good && s.tokens != [] && LeadingNumber(s.tokens[0]).None? ==>
      r.stored == Some(0) && !r.next.good
    ensures s.good && s.tokens != [] && LeadingNumber(s.tokens[0]).Some? ==>
      var v := LeadingNumber(s.tokens[0]).value;
      r.stored == Some(Clamp32(v)) && (r.next.good <==> InInt32(v))
    ensures r.next.good ==>
      var rest := AfterNumber(s.tokens[0]);
      r.next.tokens == (if rest == [] then [] else [rest]) + s.tokens[1..]
  {
    if !s.good || s.tokens == [] then IntRead(Stream([], false), None)
    else
      var t := s.tokens[0];
      match LeadingNumber(t)
      case None => IntRead(Stream([], false), Some(0))
      case Some(v) =>
        if !InInt32(v) then IntRead(Stream([], false), Some(Clamp32(v)))
        else
          var rest := AfterNumber(t);
          var tokens := (if rest == [] then [] else [rest]) + s.tokens[1..];
          assert Chars(tokens) < Chars(s.tokens) by {
            if rest != [] {
              assert tokens[1..] == s.tokens[1..];
            } else {
              assert tokens == s.tokens[1..];
            }
          }
          IntRead(Stream(tokens, true), Some(v))
  }

  /** The value and the unit label that follow a field name. */
  datatype EntryRead = EntryRead(next: Stream, stored: Option<int>, unitLabel: Option<string>)

  function ReadEntry(s: Stream): (r: EntryRead)
    requires NonEmptyTokens(s.tokens)
    ensures IsSuffix(r.next.tokens, s.tokens)
    ensures r.next.good ==> r.unitLabel.Some? && r.stored.Some?
  {
    var v := ReadInt(s);
    var l := ReadWord(v.next);
    var r := EntryRead(l.next, v.stored, l.word);
    assert IsSuffix(r.next.tokens, s.tokens) by {
      if l.word.Some? {
        var rest := AfterNumber(s.tokens[0]);
        if rest == [] {
          assert v.next.tokens == s.tokens[1..];
          assert l.next.tokens == s.tokens[2..];
        } else {
          assert v.next.tokens == [rest] + s.tokens[1..];
          assert l.next.tokens == s.tokens[1..];
        }
      }
    }
    r
  }

  /** field.substr(0, field.length() - 1): drops the last character. */
  function Chop(field: string): (r: string)
    ensures |field| > 0 ==> r + [field[|field| - 1]] == field
  {
    if |field| == 0 then "" else field[..|field| - 1]
  }

  lemma KbIsNotMb(l: string)
    requires EqualsIgnoreCase(l, KB_LABEL)
    ensures !EqualsIgnoreCase(l, MB_LABEL)
  {
    assert ToLowerAscii(l[0]) == ToLowerAscii(KB_LABEL[0]);
  }

  /** C's quotient of a by d: truncated toward zero. */
  predicate TruncatedQuotient(a: int, d: int, q: int) {
    (a >= 0 ==> 0 <= a - q * d < d) && (a < 0 ==> -d < a - q * d <= 0)
  }

  /** Converts a value given in the unit `unitLabel` to megabytes: "kb" (any case)
      divides by 1024, "mb" (any case) leaves it, any other label divides by
      1024 * 1024; division truncates toward zero. */
  function ToMegabytes(value: int, unitLabel: string): (r: int)
    ensures EqualsIgnoreCase(unitLabel, KB_LABEL) ==> TruncatedQuotient(value, 1024, r)
    ensures EqualsIgnoreCase(unitLabel, MB_LABEL) ==> r == value
    ensures !EqualsIgnoreCase(unitLabel, KB_LABEL) && !EqualsIgnoreCase(unitLabel, MB_LABEL) ==>
      TruncatedQuotient(value, 1024 * 1024, r)
    ensures value >= 0 ==> 0 <= r <= value
  {
    if EqualsIgnoreCase(unitLabel, KB_LABEL) then
      KbIsNotMb(unitLabel);
      assert value >= 0 ==> 0 <= value / 1024 <= value;
      TruncDiv(value, 1024)
    else if !EqualsIgnoreCase(unitLabel, MB_LABEL) then
      assert value >= 0 ==> 0 <= value / (1024 * 1024) <= value;
      TruncDiv(value, 1024 * 1024)
    else value
  }

  /** The values a read leaves in a variable and in the label. */
  function StoredOr(o: Option<int>, otherwise: int): int {
    if o.Some? then o.value else otherwise
  }

  function LabelOr(o: Option<string>, otherwise: string): string {
    if o.Some? then o.value else otherwise
  }

  /** The scan loop of getProcessMemInfo, from stream `s` with the current
      values of procRss, procSwap and unitLabel; the result is the final pair. */
  function Scan(s: Stream, rss: int, swap: int, unitLabel: string): (r: (int, int))
    requires NonEmptyTokens(s.tokens)
    decreases Chars(s.tokens)
  {
    var w := ReadWord(s);
    if w.word.None? then (rss, swap)
    else
      var field := Chop(w.word.value);
      if field == PROC_RSS then
        var e := ReadEntry(w.next);
        var unitLabel' := LabelOr(e.unitLabel, unitLabel);
        var rss' := ToMegabytes(StoredOr(e.stored, rss), unitLabel');
        if swap != -1 then (rss', swap)
        else
          SuffixChars(e.next.tokens, w.next.tokens);
          Scan(e.next, rss', swap, unitLabel')
      else if field == PROC_SWAP then
        var e := ReadEntry(w.next);
        var unitLabel' := LabelOr(e.unitLabel, unitLabel);
        var swap' := ToMegabytes(StoredOr(e.stored, swap), unitLabel');
        if rss != -1 then (rss, swap')
        else
          SuffixChars(e.next.tokens, w.next.tokens);
          Scan(e.next, rss, swap', unitLabel')
      else Scan(w.next, rss, swap, unitLabel)
  }

  /** The result from the pair: -1 when either value is still -1, else the sum. */
  function Combine(p: (int, int)): int {
    if p.0 == -1 || p.1 == -1 then -1 else p.0 + p.1
  }

  /** getProcessMemInfo for a status file that opened with these tokens, or did not. */
  function ProcessMemInfo(status: Option<seq<string>>): int
    requires status.Some? ==> NonEmptyTokens(status.value)
  {
    if status.None? then -1 else Combine(Scan(Stream(status.value, true), -1, -1, ""))
  }

  /** MemoryMonitor::getProcessMemInfo. */
  method GetProcessMemInfo(status: Option<seq<string>>) returns (r: int)
    requires status.Some? ==> NonEmptyTokens(status.value)
    ensures r == ProcessMemInfo(status)
  {
    if status.None? {
      return -1;
    }
    var s := Stream(status.value, true);
    var procRss := -1;
    var procSwap := -1;
    var unitLabel := "";
    ghost var total := Scan(s, procRss, procSwap, unitLabel);
    while true
      invariant NonEmptyTokens(s.tokens)
      invariant Scan(s, procRss, procSwap, unitLabel) == total
      decreases Chars(s.tokens)
    {
      var w := ReadWord(s);
      if w.word.None? {
        break;
      }
      var field := Chop(w.word.value);
      if field == PROC_RSS {
        var e := ReadEntry(w.next);
        unitLabel := LabelOr(e.unitLabel, unitLabel);
        procRss := ToMegabytes(StoredOr(e.stored, procRss), unitLabel);
        if procSwap != -1 {
          break;
        }
        SuffixChars(e.next.tokens, w.next.tokens);
        SuffixNonEmpty(e.next.tokens, w.next.tokens);
        s := e.next;
      } else if field == PROC_SWAP {
        var e := ReadEntry(w.next);
        unitLabel := LabelOr(e.unitLabel, unitLabel);
        procSwap := ToMegabytes(StoredOr(e.stored, procSwap), unitLabel);
        if procRss != -1 {
          break;
        }
        SuffixChars(e.next.tokens, w.next.tokens);
        SuffixNonEmpty(e.next.tokens, w.next.tokens);
        s := e.next;
      } else {
        s := w.next;
      }
    }
    if procRss == -1 || procSwap == -1 {
      return -1;
    }
    return procRss + procSwap;
  }

  // ---------------------------------------------------------------------------
  // What the scan computes.

  predicate IsRssField(t: string) {
    Chop(t) == PROC_RSS
  }

  predicate IsSwapField(t: string) {
    Chop(t) == PROC_SWAP
  }

  /** Without a VmRSS field the scan never touches procRss. */
  lemma {:induction false} ScanKeepsRssWithoutField(s: Stream, rss: int, swap: int, unitLabel: string)
    requires NonEmptyTokens(s.tokens)
    requires forall i :: 0 <= i < |s.tokens| ==> !IsRssField(s.tokens[i])
    ensures Scan(s, rss, swap, unitLabel).0 == rss
    decreases Chars(s.tokens)
  {
    var w := ReadWord(s);
    if w.word.Some? {
      var field := Chop(w.word.value);
      if field != PROC_RSS {
        if field == PROC_SWAP {
          var e := ReadEntry(w.next);
          var unitLabel' := LabelOr(e.unitLabel, unitLabel);
          var swap' := ToMegabytes(StoredOr(e.stored, swap), unitLabel');
          if rss == -1 {
            SuffixChars(e.next.tokens, w.next.tokens);
            SuffixNonEmpty(e.next.tokens, w.next.tokens);
            SuffixTrans(e.next.tokens, w.next.tokens, s.tokens);
            KeepsRssFromSuffix(e.next.tokens, s.tokens);
            ScanKeepsRssWithoutField(e.next, rss, swap', unitLabel');
          }
        } else {
          KeepsRssFromSuffix(w.next.tokens, s.tokens);
          ScanKeepsRssWithoutField(w.next, rss, swap, unitLabel);
        }
      }
    }
  }

  lemma KeepsRssFromSuffix(a: seq<string>, b: seq<string>)
    requires |b| > 0 ==> IsSuffix(a, b)
    requires |b| == 0 ==> a == []
    requires forall i :: 0 <= i < |b| ==> !IsRssField(b[i])
    ensures forall i :: 0 <= i < |a| ==> !IsRssField(a[i])
  {
    forall i | 0 <= i < |a| ensures !IsRssField(a[i]) {
      assert a[i] == b[|b| - |a| + i];
    }
  }

  lemma {:induction false} ScanKeepsSwapWithoutField(s: Stream, rss: int, swap: int, unitLabel: string)
    requires NonEmptyTokens(s.tokens)
    requires forall i :: 0 <= i < |s.tokens| ==> !IsSwapField(s.tokens[i])
    ensures Scan(s, rss, swap, unitLabel).1 == swap
    decreases Chars(s.tokens)
  {
    var w := ReadWord(s);
    if w.word.Some? {
      var field := Chop(w.word.value);
      if field != PROC_SWAP {
        if field == PROC_RSS {
          var e := ReadEntry(w.next);
          var unitLabel' := LabelOr(e.unitLabel, unitLabel);
          var rss' := ToMegabytes(StoredOr(e.stored, rss), unitLabel');
          if swap == -1 {
            SuffixChars(e.next.tokens, w.next.tokens);
            SuffixNonEmpty(e.next.tokens, w.next.tokens);
            SuffixTrans(e.next.tokens, w.next.tokens, s.tokens);
            KeepsSwapFromSuffix(e.next.tokens, s.tokens);
            ScanKeepsSwapWithoutField(e.next, rss', swap, unitLabel');
          }
        } else {
          KeepsSwapFromSuffix(w.next.tokens, s.tokens);
          ScanKeepsSwapWithoutField(w.next, rss, swap, unitLabel);
        }
      }
    }
  }

  lemma KeepsSwapFromSuffix(a: seq<string>, b: seq<string>)
    requires |b| > 0 ==> IsSuffix(a, b)
    requires |b| == 0 ==> a == []
    requires forall i :: 0 <= i < |b| ==> !IsSwapField(b[i])
    ensures forall i :: 0 <= i < |a| ==> !IsSwapField(a[i])
  {
    forall i | 0 <= i < |a| ensures !IsSwapField(a[i]) {
      assert a[i] == b[|b| - |a| + i];
    }
  }

  /** A status file without a VmRSS line or without a VmSwap line gives -1,
      and so does one that cannot be opened. */
  lemma MissingFieldGivesMinusOne(status: Option<seq<string>>)
    requires status.Some? ==> NonEmptyTokens(status.value)
    requires status.Some? ==>
      (forall i :: 0 <= i < |status.value| ==> !IsRssField(status.value[i]))
      || (forall i :: 0 <= i < |status.value| ==> !IsSwapField(status.value[i]))
    ensures ProcessMemInfo(status) == -1
  {
    if status.Some? {
      var s := Stream(status.value, true);
      if forall i :: 0 <= i < |status.value| ==> !IsRssField(status.value[i]) {
        ScanKeepsRssWithoutField(s, -1, -1, "");
      } else {
        ScanKeepsSwapWithoutField(s, -1, -1, "");
      }
    }
  }

  predicate Plain(t: string) {
    !IsRssField(t) && !IsSwapField(t)
  }

  /** Lines other than the two fields are skipped. */
  lemma {:induction false} ScanSkipsPlain(pre: seq<string>, rest: seq<string>, rss: int, swap: int, unitLabel: string)
    requires NonEmptyTokens(pre + rest)
    requires forall i :: 0 <= i < |pre| ==> Plain(pre[i])
    ensures NonEmptyTokens(rest)
    ensures Scan(Stream(pre + rest, true), rss, swap, unitLabel) == Scan(Stream(rest, true), rss, swap, unitLabel)
    decreases |pre|
  {
    assert forall i :: 0 <= i < |rest| ==> rest[i] == (pre + rest)[|pre| + i];
    if pre != [] {
      assert (pre + rest)[0] == pre[0];
      assert (pre + rest)[1..] == pre[1..] + rest;
      ScanSkipsPlain(pre[1..], rest, rss, swap, unitLabel);
    } else {
      assert pre + rest == rest;
    }
  }

  /** A number written in plain decimal digits that fits in an int is read whole. */
  lemma ReadDecimal(a: string, rest: seq<string>)
    requires IsDigits(a) && DecimalToNat(a) <= INT32_MAX
    ensures ReadInt(Stream([a] + rest, true)) == IntRead(Stream(rest, true), Some(DecimalToNat(a)))
  {
    var s := Stream([a] + rest, true);
    assert s.tokens[0] == a;
    assert SignLength(a) == 0;
    DigitRunAll(a, 0);
    assert a[0..0 + |a|] == a;
    assert a[0 + |a|..] == [];
    assert s.tokens[1..] == rest;
    assert ([] + rest) == rest;
  }

  lemma {:induction false} DigitRunAll(a: string, i: nat)
    requires IsDigits(a) && i <= |a|
    ensures DigitRun(a, i) == |a| - i
    decreases |a| - i
  {
    if i < |a| {
      DigitRunAll(a, i + 1);
    }
  }

  /** One field line "<name>: <digits> <unit>" in front of `rest`. */
  lemma ReadFieldEntry(a: string, unit: string, rest: seq<string>)
    requires IsDigits(a) && DecimalToNat(a) <= INT32_MAX && |unit| > 0
    requires NonEmptyTokens(rest)
    ensures NonEmptyTokens([a, unit] + rest)
    ensures ReadEntry(Stream([a, unit] + rest, true)) == EntryRead(Stream(rest, true), Some(DecimalToNat(a)), Some(unit))
  {
    assert [a, unit] + rest == [a] + ([unit] + rest);
    ReadDecimal(a, [unit] + rest);
    assert ([unit] + rest)[1..] == rest;
  }

  /** The scan over a well-formed VmRSS line. */
  lemma ScanRssLine(name: string, a: string, unit: string, rest: seq<string>, rss: int, swap: int, lbl: string)
    requires IsRssField(name) && IsDigits(a) && DecimalToNat(a) <= INT32_MAX && |unit| > 0
    requires NonEmptyTokens(rest)
    ensures NonEmptyTokens([name, a, unit] + rest)
    ensures var v := ToMegabytes(DecimalToNat(a), unit);
      Scan(Stream([name, a, unit] + rest, true), rss, swap, lbl)
        == if swap != -1 then (v, swap) else Scan(Stream(rest, true), v, swap, unit)
  {
    var tokens := [name, a, unit] + rest;
    assert tokens[1..] == [a, unit] + rest;
    ReadFieldEntry(a, unit, rest);
    assert NonEmptyTokens(tokens) by {
      assert forall i :: 3 <= i < |tokens| ==> tokens[i] == rest[i - 3];
    }
  }

  /** The scan over a well-formed VmSwap line. */
  lemma ScanSwapLine(name: string, b: string, unit: string, rest: seq<string>, rss: int, swap: int, lbl: string)
    requires IsSwapField(name) && IsDigits(b) && DecimalToNat(b) <= INT32_MAX && |unit| > 0
    requires NonEmptyTokens(rest)
    ensures NonEmptyTokens([name, b, unit] + rest)
    ensures var v := ToMegabytes(DecimalToNat(b), unit);
      Scan(Stream([name, b, unit] + rest, true), rss, swap, lbl)
        == if rss != -1 then (rss, v) else Scan(Stream(rest, true), rss, v, unit)
  {
    var tokens := [name, b, unit] + rest;
    assert tokens[1..] == [b, unit] + rest;
    assert Chop(name) != PROC_RSS;
    ReadFieldEntry(b, unit, rest);
    assert NonEmptyTokens(tokens) by {
      assert forall i :: 3 <= i < |tokens| ==> tokens[i] == rest[i - 3];
    }
  }

  lemma NonEmptyConcat(a: seq<string>, b: seq<string>)
    requires NonEmptyTokens(a) && NonEmptyTokens(b)
    ensures NonEmptyTokens(a + b)
  {
    assert forall i :: |a| <= i < |a + b| ==> (a + b)[i] == b[i - |a|];
  }

  /** A status file holding "VmRSS: <a> <ua>" and later "VmSwap: <b> <ub>",
      in either order, with only other lines before and between, gives the sum
      of the two values converted to megabytes; nothing after the second is read. */
  lemma WellFormedStatus(pre: seq<string>, rssName: string, a: string, ua: string,
                         mid: seq<string>, swapName: string, b: string, ub: string,
                         post: seq<string>, rssFirst: bool)
    requires IsRssField(rssName) && IsSwapField(swapName)
    requires IsDigits(a) && DecimalToNat(a) <= INT32_MAX && |ua| > 0
    requires IsDigits(b) && DecimalToNat(b) <= INT32_MAX && |ub| > 0
    requires forall i :: 0 <= i < |pre| ==> Plain(pre[i]) && |pre[i]| > 0
    requires forall i :: 0 <= i < |mid| ==> Plain(mid[i]) && |mid[i]| > 0
    requires NonEmptyTokens(post)
    ensures var first := if rssFirst then [rssName, a, ua] else [swapName, b, ub];
      var second := if rssFirst then [swapName, b, ub] else [rssName, a, ua];
      var tokens := pre + (first + (mid + (second + post)));
      NonEmptyTokens(tokens)
      && ProcessMemInfo(Some(tokens)) == ToMegabytes(DecimalToNat(a), ua) + ToMegabytes(DecimalToNat(b), ub)
  {
    var first := if rssFirst then [rssName, a, ua] else [swapName, b, ub];
    var second := if rssFirst then [swapName, b, ub] else [rssName, a, ua];
    var ra := ToMegabytes(DecimalToNat(a), ua);
    var rb := ToMegabytes(DecimalToNat(b), ub);
    var tail2 := second + post;
    var tail1 := first + (mid + tail2);
    var tokens := pre + tail1;
    if rssFirst {
      ScanSwapLine(swapName, b, ub, post, ra, -1, ua);
    } else {
      ScanRssLine(rssName, a, ua, post, -1, rb, ub);
    }
    NonEmptyConcat(mid, tail2);
    if rssFirst {
      ScanRssLine(rssName, a, ua, mid + tail2, -1, -1, "");
      ScanSkipsPlain(mid, tail2, ra, -1, ua);
    } else {
      ScanSwapLine(swapName, b, ub, mid + tail2, -1, -1, "");
      ScanSkipsPlain(mid, tail2, -1, rb, ub);
    }
    NonEmptyConcat(pre, tail1);
    ScanSkipsPlain(pre, tail1, -1, -1, "");
    assert Scan(Stream(tokens, true), -1, -1, "") == (ra, rb);
  }

  // ---------------------------------------------------------------------------

  class MemoryMonitor {
    var state: MemState
    var currRssUsage: int
    var timerRunning: bool
    var timerIntervalMs: int

    constructor ()
      ensures state == Normal && currRssUsage == 0 && !timerRunning
    {
      state := Normal;
      currRssUsage := 0;
      timerRunning := false;
      timerIntervalMs := 0;
    }

    /** getCurrentRssUsage: `statm` is the resident-page count read from
        /proc/self/statm, or None when the file cannot be opened. */
    function CurrentRssUsage(statm: Option<int>): (mb: int)
      reads this
      requires statm.Some? ==> InInt32(statm.value * PAGE_SIZE)
      ensures statm.None? ==> mb == currRssUsage
      ensures statm.Some? && statm.value >= 0 ==> mb == statm.value * PAGE_SIZE / 1048576
    {
      if statm.None? then currRssUsage else RssMegabytes(statm.value)
    }

    /** MemoryMonitor::start: arms the periodic timer unless it already runs. */
    method Start()
      modifies this
      ensures timerRunning
      ensures old(timerRunning) ==> timerIntervalMs == old(timerIntervalMs)
      ensures !old(timerRunning) ==> timerIntervalMs == TIMER_MS
      ensures state == old(state) && currRssUsage == old(currRssUsage)
    {
      if timerRunning {
        return;
      }
      timerRunning := true;
      timerIntervalMs := TIMER_MS;
    }

    /** MemoryMonitor::timerTicked: samples the resident size, except in Normal;
        always asks to be called again. */
    method TimerTicked(statm: Option<int>) returns (again: bool)
      requires statm.Some? ==> InInt32(statm.value * PAGE_SIZE)
      modifies this
      ensures again
      ensures old(state) == Normal ==> currRssUsage == old(currRssUsage)
      ensures old(state) != Normal ==> currRssUsage == old(CurrentRssUsage(statm))
      ensures state == old(state) && timerRunning == old(timerRunning)
      ensures timerIntervalMs == old(timerIntervalMs)
    {
      if state == Normal {
        return true;
      }
      currRssUsage := CurrentRssUsage(statm);
      return true;
    }
  }

  /** Starting the timer twice is the same as starting it once. */
  method StartTwice(m: MemoryMonitor)
    modifies m
    ensures m.timerRunning
    ensures old(m.timerRunning) ==> m.timerIntervalMs == old(m.timerIntervalMs)
    ensures !old(m.timerRunning) ==> m.timerIntervalMs == TIMER_MS
  {
    m.Start();
    ghost var once := m.timerIntervalMs;
    m.Start();
    assert m.timerIntervalMs == once;
  }
}
