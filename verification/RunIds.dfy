/**
 * Run ids and the canonical run of a task (src/operator/run-ledger.ts,
 * src/operator/contracts.ts).
 *
 * Sequence numbers are JavaScript numbers: exact up to 2^53, and rounded beyond by a
 * function of which only monotonicity, idempotence and its first rounding step are assumed.
 */
module RunIds {
  import opened Common
  import opened Decimal
  import opened Sorting
  import CanonicalJson
  import OperatorPipeline

  // ── Decimal printing and parsing ──────────────────────────────────────

  function Zeros(n: nat): string {
    seq(n, _ => '0')
  }

  /** Padded on the left with zeros to at least six characters. */
  function Pad(s: string): string {
    if |s| < 6 then Zeros(6 - |s|) + s else s
  }

  /** Number of leading digits. */
  function Digits(s: string): nat {
    if s == "" || !IsDigit(s[0]) then 0 else 1 + Digits(s[1..])
  }

  lemma {:induction false} LeadingAreDigits(s: string)
    ensures Digits(s) <= |s|
    ensures forall i :: 0 <= i < Digits(s) ==> IsDigit(s[i])
    ensures (forall i :: 0 <= i < |s| ==> IsDigit(s[i])) ==> Digits(s) == |s|
  {
    if s != "" && IsDigit(s[0]) {
      LeadingAreDigits(s[1..]);
    }
  }

  function Leading(s: string): (t: string)
    ensures forall i :: 0 <= i < |t| ==> IsDigit(t[i])
  {
    LeadingAreDigits(s);
    s[..Digits(s)]
  }

  /** The integer a numeric prefix denotes; none when there is no digit to read. */
  function ParseInt(s: string): Option<int> {
    var signed := s != "" && (s[0] == '-' || s[0] == '+');
    var digits := Leading(if signed then s[1..] else s);
    var value: int := DigitsValue(digits);
    if digits == "" then None else Some(if signed && s[0] == '-' then -value else value)
  }

  lemma {:induction false} LeadingZeros(k: nat, s: string)
    requires forall i :: 0 <= i < |s| ==> IsDigit(s[i])
    ensures DigitsValue(Zeros(k) + s) == DigitsValue(s)
    decreases |s| + k
  {
    var z := Zeros(k) + s;
    if s != "" {
      assert z[..|z| - 1] == Zeros(k) + s[..|s| - 1];
      LeadingZeros(k, s[..|s| - 1]);
    } else if k > 0 {
      assert z[..|z| - 1] == Zeros(k - 1) + "";
      LeadingZeros(k - 1, "");
    }
  }

  lemma PaddedIsDigits(n: nat)
    ensures Pad(Print(n)) != ""
    ensures forall i :: 0 <= i < |Pad(Print(n))| ==> IsDigit(Pad(Print(n))[i])
    ensures DigitsValue(Pad(Print(n))) == n
  {
    var printed := Print(n);
    PrintIsDigits(n);
    if |printed| < 6 {
      LeadingZeros(6 - |printed|, printed);
    }
  }

  lemma ParseOfDigits(s: string)
    requires s != "" && forall i :: 0 <= i < |s| ==> IsDigit(s[i])
    ensures ParseInt(s) == Some(DigitsValue(s))
  {
    LeadingAreDigits(s);
    assert IsDigit(s[0]);
    assert s[..|s|] == s;
  }

  /** Printing with zero padding and parsing undo each other. */
  lemma PadThenParse(n: nat)
    ensures ParseInt(Pad(Print(n))) == Some(n)
  {
    PaddedIsDigits(n);
    ParseOfDigits(Pad(Print(n)));
  }

  // ── Building run ids ──────────────────────────────────────────────────

  /** A ledger entry with its id and its completion time. */
  datatype Entry = Entry(runId: string, completedAt: int, body: OperatorPipeline.LedgerEntry)

  const MAX_SAFE: int := 0x20_0000_0000_0000

  /** What is assumed of rounding an integer to the nearest JavaScript number. */
  ghost predicate Doubles(round: int -> int) {
    && (forall n :: -MAX_SAFE <= n <= MAX_SAFE ==> round(n) == n)
    && (forall m, n :: m <= n ==> round(m) <= round(n))
    && round(MAX_SAFE + 1) == MAX_SAFE
    && (forall n :: round(round(n)) == round(n))
  }

  lemma SuchARoundingExists()
    ensures exists round: int -> int :: Doubles(round)
  {
    var round := (n: int) => if n > MAX_SAFE then n - n % 2 else n;
    assert forall n :: n - 1 <= round(n) <= n && (n > MAX_SAFE ==> round(n) % 2 == 0);
    assert forall m, n :: m <= n ==> round(m) <= round(n);
    assert Doubles(round);
  }

  function LowerAlnum(s: string): string {
    if s == "" then ""
    else
      var c := if 'A' <= s[0] <= 'Z' then s[0] - 'A' + 'a' else s[0];
      (if 'a' <= c <= 'z' || IsDigit(c) then [c] else "") + LowerAlnum(s[1..])
  }

  function Stamp(isoTimestamp: string): string {
    var s := LowerAlnum(isoTimestamp);
    if |s| > 24 then s[..24] else s
  }

  function Prefix(taskId: string, completedAt: string): string {
    taskId + "." + Stamp(completedAt)
  }

  predicate HasPrefix(runId: string, prefix: string) {
    (prefix + ".") <= runId
  }

  /** The number read after a prefix, where there is one. */
  function SequenceOf(round: int -> int, prefix: string, runId: string): Option<int> {
    if !HasPrefix(runId, prefix) then None
    else
      var parsed := ParseInt(runId[|prefix| + 1..]);
      if parsed.None? then None else Some(round(parsed.value))
  }

  function LastSequence(round: int -> int, prefix: string, entries: seq<Entry>): (last: nat)
    ensures forall e :: e in entries ==>
                var s := SequenceOf(round, prefix, e.runId); s.None? || s.value <= last
    ensures last == 0 || exists e :: e in entries && SequenceOf(round, prefix, e.runId) == Some(last)
  {
    if entries == [] then 0
    else
      var n := |entries| - 1;
      assert entries == entries[..n] + [entries[n]];
      var before := LastSequence(round, prefix, entries[..n]);
      var s := SequenceOf(round, prefix, entries[n].runId);
      if s.Some? && s.value > before then s.value else before
  }

  function BuildRunId(round: int -> int, taskId: string, completedAt: string, entries: seq<Entry>): string
  {
    var prefix := Prefix(taskId, completedAt);
    var next := round(LastSequence(round, prefix, entries) + 1);
    prefix + "." + Pad(Print(if next < 0 then 0 else next))
  }

  /** A ledger holds the run id. */
  predicate Uses(entries: seq<Entry>, runId: string) {
    exists e :: e in entries && e.runId == runId
  }

  lemma SequenceOfBuilt(round: int -> int, prefix: string, n: nat)
    ensures SequenceOf(round, prefix, prefix + "." + Pad(Print(n))) == Some(round(n))
  {
    var id := prefix + "." + Pad(Print(n));
    assert id[|prefix| + 1..] == Pad(Print(n));
    PadThenParse(n);
  }

  /** A new run id is never already in the ledger, as long as the last sequence number
      read for its prefix is below 2^53. */
  lemma RunIdsAreNew(round: int -> int, taskId: string, completedAt: string, entries: seq<Entry>)
    requires Doubles(round)
    requires LastSequence(round, Prefix(taskId, completedAt), entries) < MAX_SAFE
    ensures !Uses(entries, BuildRunId(round, taskId, completedAt, entries))
  {
    var prefix := Prefix(taskId, completedAt);
    var next := LastSequence(round, prefix, entries) + 1;
    SequenceOfBuilt(round, prefix, next);
    assert SequenceOf(round, prefix, BuildRunId(round, taskId, completedAt, entries)) == Some(next);
  }

  /** Exactly when a new run id is already taken: the successor of the last sequence number
      rounds back onto it, and the ledger holds that number as it is printed. */
  lemma RunIdIsTakenIff(round: int -> int, taskId: string, completedAt: string, entries: seq<Entry>)
    requires Doubles(round)
    ensures var prefix := Prefix(taskId, completedAt);
            var last := LastSequence(round, prefix, entries);
            Uses(entries, BuildRunId(round, taskId, completedAt, entries)) <==>
            round(last + 1) == last && Uses(entries, prefix + "." + Pad(Print(last)))
  {
    var prefix := Prefix(taskId, completedAt);
    var last := LastSequence(round, prefix, entries);
    var next := round(last + 1);
    LastIsRounded(round, prefix, entries);
    assert round(last) <= next && round(next) == next;
    SequenceOfBuilt(round, prefix, next);
    if Uses(entries, prefix + "." + Pad(Print(next))) {
      var e :| e in entries && e.runId == prefix + "." + Pad(Print(next));
      assert SequenceOf(round, prefix, e.runId) == Some(next);
    }
  }

  lemma LastIsRounded(round: int -> int, prefix: string, entries: seq<Entry>)
    requires Doubles(round)
    ensures round(LastSequence(round, prefix, entries)) == LastSequence(round, prefix, entries)
  {
    var last := LastSequence(round, prefix, entries);
    if last != 0 {
      var e :| e in entries && SequenceOf(round, prefix, e.runId) == Some(last);
      assert last == round(ParseInt(e.runId[|prefix| + 1..]).value);
    }
  }

  /** At 2^53 the next number rounds back onto the last one, and the id it prints is taken
      whenever the ledger holds that number as printed. */
  lemma RunIdsCollideAtTheRoundingLimit(round: int -> int, taskId: string, completedAt: string, entries: seq<Entry>)
    requires Doubles(round)
    requires LastSequence(round, Prefix(taskId, completedAt), entries) == MAX_SAFE
    ensures BuildRunId(round, taskId, completedAt, entries) == Prefix(taskId, completedAt) + "." + Pad(Print(MAX_SAFE))
    ensures forall e: Entry :: e.runId == BuildRunId(round, taskId, completedAt, entries) ==>
              BuildRunId(round, taskId, completedAt, entries + [e]) == e.runId
  {
    var prefix := Prefix(taskId, completedAt);
    var id := BuildRunId(round, taskId, completedAt, entries);
    SequenceOfBuilt(round, prefix, MAX_SAFE);
    forall e: Entry | e.runId == id ensures BuildRunId(round, taskId, completedAt, entries + [e]) == id {
      assert (entries + [e])[..|entries|] == entries;
      assert LastSequence(round, prefix, entries + [e]) == MAX_SAFE;
    }
  }

  // ── Ids order as their numbers ────────────────────────────────────────

  lemma {:induction false} LessSkipsPrefix(prefix: string, a: string, b: string)
    ensures CanonicalJson.Less(prefix + a, prefix + b) <==> CanonicalJson.Less(a, b)
  {
    if prefix == "" {
      assert prefix + a == a && prefix + b == b;
    } else {
      LessSkipsPrefix(prefix[1..], a, b);
      assert (prefix + a)[1..] == prefix[1..] + a && (prefix + b)[1..] == prefix[1..] + b;
    }
  }

  lemma {:induction false} LessByLast(a: string, b: string, x: char, y: char)
    requires |a| == |b|
    ensures CanonicalJson.Less(a + [x], b + [y]) <==> CanonicalJson.Less(a, b) || (a == b && x < y)
  {
    if a == "" {
      assert a + [x] == [x] && b + [y] == [y];
    } else {
      LessByLast(a[1..], b[1..], x, y);
      assert (a + [x])[1..] == a[1..] + [x] && (b + [y])[1..] == b[1..] + [y];
      assert a == [a[0]] + a[1..] && b == [b[0]] + b[1..];
    }
  }

  /** Digit strings of one length order as the numbers they denote. */
  lemma {:induction false} DigitsOrderAsNumbers(a: string, b: string)
    requires |a| == |b|
    requires forall i :: 0 <= i < |a| ==> IsDigit(a[i]) && IsDigit(b[i])
    ensures CanonicalJson.Less(a, b) <==> DigitsValue(a) < DigitsValue(b)
    ensures a == b <==> DigitsValue(a) == DigitsValue(b)
  {
    if a != "" {
      var n := |a| - 1;
      assert a == a[..n] + [a[n]] && b == b[..n] + [b[n]];
      DigitsOrderAsNumbers(a[..n], b[..n]);
      LessByLast(a[..n], b[..n], a[n], b[n]);
    }
  }

  lemma {:induction false} PrintedLength(n: nat, k: nat, bound: nat)
    requires n < bound
    requires k > 0 && bound == Power10(k)
    ensures |Print(n)| <= k
  {
    if n >= 10 {
      assert k > 1;
      PrintedLength(n / 10, k - 1, Power10(k - 1));
    }
  }

  function Power10(k: nat): (p: nat)
    ensures p > 0
  {
    if k == 0 then 1 else 10 * Power10(k - 1)
  }

  lemma SixCharacters(n: nat)
    requires n <= 999_999
    ensures |Pad(Print(n))| == 6
  {
    assert Power10(6) == 1_000_000;
    PrintedLength(n, 6, 1_000_000);
  }

  /** Up to 999,999, ids of one prefix order as strings exactly as their numbers. */
  lemma IdsOrderAsNumbers(prefix: string, a: nat, b: nat)
    requires a <= 999_999 && b <= 999_999
    ensures CanonicalJson.Less(prefix + "." + Pad(Print(a)), prefix + "." + Pad(Print(b))) <==> a < b
  {
    SixCharacters(a);
    SixCharacters(b);
    PaddedIsDigits(a);
    PaddedIsDigits(b);
    LessSkipsPrefix(prefix + ".", Pad(Print(a)), Pad(Print(b)));
    DigitsOrderAsNumbers(Pad(Print(a)), Pad(Print(b)));
  }

  lemma {:induction false} LongerNumbersPrintLonger(a: nat, b: nat)
    requires a <= b
    ensures |Print(a)| <= |Print(b)| && |Pad(Print(a))| <= |Pad(Print(b))|
  {
    if a >= 10 {
      LongerNumbersPrintLonger(a / 10, b / 10);
    }
  }

  lemma {:induction false} ShorterIsLessByHead(a: string, b: string)
    requires |a| < |b|
    ensures CanonicalJson.Less(a, b) <==> CanonicalJson.Less(a, b[..|a|]) || a == b[..|a|]
  {
    if a != "" {
      ShorterIsLessByHead(a[1..], b[1..]);
      assert b[..|a|][1..] == b[1..][..|a[1..]|];
      assert a == [a[0]] + a[1..] && b[..|a|] == [b[0]] + b[..|a|][1..];
    }
  }

  lemma {:induction false} HeadIsQuotient(s: string, k: nat)
    requires k <= |s| && forall i :: 0 <= i < |s| ==> IsDigit(s[i])
    ensures DigitsValue(s[..|s| - k]) == DigitsValue(s) / Power10(k)
  {
    if k > 0 {
      HeadIsQuotient(s[..|s| - 1], k - 1);
      assert s[..|s| - 1][..|s| - k] == s[..|s| - k];
      DivideByTenMore(DigitsValue(s), Power10(k - 1));
    } else {
      assert s[..|s|] == s;
    }
  }

  lemma DivideByTenMore(n: nat, p: nat)
    requires p > 0
    ensures n / 10 / p == n / (10 * p)
  {
    var q := n / 10 / p;
    var r := n / 10 - q * p;
    assert 0 <= r < p && n / 10 == q * p + r;
    var d := n - 10 * (n / 10);
    assert n == q * (10 * p) + (10 * r + d) && 0 <= 10 * r + d < 10 * p;
    QuotientIsUnique(n, 10 * p, q, 10 * r + d);
  }

  lemma AtLeastOnce(x: int, p: nat)
    requires x >= 1
    ensures x * p >= p
  {
    assert x * p == (x - 1) * p + p;
  }

  lemma QuotientIsUnique(n: nat, p: nat, q: int, r: int)
    requires p > 0 && n == q * p + r && 0 <= r < p
    ensures n / p == q
  {
    var m, t := n / p, n % p;
    assert n == m * p + t;
    assert (q - m) * p == q * p - m * p == t - r;
    if q > m {
      AtLeastOnce(q - m, p);
    } else if m > q {
      assert (m - q) * p == r - t;
      AtLeastOnce(m - q, p);
    }
  }

  lemma PaddedOrderIff(a: nat, b: nat)
    requires a < b
    ensures var sa, sb := Pad(Print(a)), Pad(Print(b));
            && sa != sb && |sa| <= |sb|
            && (CanonicalJson.Less(sa, sb) <==> a <= b / Power10(|sb| - |sa|))
  {
    var sa, sb := Pad(Print(a)), Pad(Print(b));
    LongerNumbersPrintLonger(a, b);
    PaddedIsDigits(a);
    PaddedIsDigits(b);
    DigitsOrderAsNumbers(sa, sb[..|sa|]);
    HeadIsQuotient(sb, |sb| - |sa|);
    assert sb[..|sb| - (|sb| - |sa|)] == sb[..|sa|];
    if |sa| < |sb| {
      ShorterIsLessByHead(sa, sb);
    } else {
      assert sb[..|sa|] == sb;
    }
  }

  /** When ids of one prefix order as their numbers: exactly when the smaller number is at
      most the larger one cut to the same printed length. */
  lemma IdsOrderIff(prefix: string, a: nat, b: nat)
    requires a < b
    ensures var sa, sb := Pad(Print(a)), Pad(Print(b));
            && |sa| <= |sb|
            && (CanonicalJson.Less(prefix + "." + sa, prefix + "." + sb) <==> a <= b / Power10(|sb| - |sa|))
            && (CanonicalJson.Less(prefix + "." + sb, prefix + "." + sa) <==> a > b / Power10(|sb| - |sa|))
  {
    var sa, sb := Pad(Print(a)), Pad(Print(b));
    PaddedOrderIff(a, b);
    LessSkipsPrefix(prefix + ".", sa, sb);
    assert sa == (prefix + "." + sa)[|prefix + "."|..] && sb == (prefix + "." + sb)[|prefix + "."|..];
    ExactlyOneIsLess(prefix + "." + sa, prefix + "." + sb);
  }

  lemma ExactlyOneIsLess(a: string, b: string)
    requires a != b
    ensures CanonicalJson.Less(a, b) <==> !CanonicalJson.Less(b, a)
  {
    CanonicalJson.LessTotal(a, b);
    if CanonicalJson.Less(a, b) && CanonicalJson.Less(b, a) {
      CanonicalJson.LessTransitive(a, b, a);
      CanonicalJson.LessIrreflexive(a);
    }
  }

  /** So the order breaks there: 1,000,000 sorts before 999,999. */
  lemma OrderBreaksAtAMillion(prefix: string)
    ensures CanonicalJson.Less(prefix + "." + Pad(Print(1_000_000)), prefix + "." + Pad(Print(999_999)))
  {
    SixCharacters(999_999);
    SevenCharacters(1_000_000);
    IdsOrderIff(prefix, 999_999, 1_000_000);
    assert Power10(1) == 10 && 1_000_000 / 10 == 100_000;
  }

  lemma SevenCharacters(n: nat)
    requires 1_000_000 <= n <= 9_999_999
    ensures |Pad(Print(n))| == 7
  {
    assert Power10(7) == 10_000_000;
    PrintedLength(n, 7, 10_000_000);
    PrintsAtLeast(n, 6);
  }

  lemma {:induction false} PrintsAtLeast(n: nat, k: nat)
    requires n >= Power10(k)
    ensures |Print(n)| > k
  {
    if k > 0 {
      PrintsAtLeast(n / 10, k - 1);
    }
  }

  // ── The canonical entry ───────────────────────────────────────────────

  /** The string comparison of ids, whatever the locale, as a strict total order. */
  type Order = (string, string) -> bool

  ghost predicate TotalOrder(less: Order) {
    StrictOrder(less) && forall a, b :: less(a, b) || less(b, a) || a == b
  }

  predicate Earlier(less: Order, a: Entry, b: Entry) {
    a.completedAt < b.completedAt || (a.completedAt == b.completedAt && less(a.runId, b.runId))
  }

  function ByCompletion(less: Order): (Entry, Entry) -> bool {
    (a, b) => Earlier(less, a, b)
  }

  function PassedOnly(entries: seq<Entry>): seq<Entry> {
    if entries == [] then []
    else
      var n := |entries| - 1;
      PassedOnly(entries[..n]) + if entries[n].body.verdict.Passed? then [entries[n]] else []
  }

  function LastOf(entries: seq<Entry>): Option<Entry> {
    if entries == [] then None else Some(entries[|entries| - 1])
  }

  function SelectCanonical(less: Order, entries: seq<Entry>): Option<Entry> {
    var sorted := Sort(ByCompletion(less), entries);
    var passed := PassedOnly(sorted);
    if passed != [] then LastOf(passed) else LastOf(sorted)
  }

  /** Different entries have different run ids. */
  predicate DistinctRuns(entries: seq<Entry>) {
    forall a, b :: a in entries && b in entries && a.runId == b.runId ==> a == b
  }

  lemma CompletionOrderIsStrict(less: Order, entries: seq<Entry>)
    requires TotalOrder(less) && DistinctRuns(entries)
    ensures StrictOrder(ByCompletion(less))
    ensures Separates(ByCompletion(less), entries)
  {
    forall a: Entry, b: Entry, c: Entry | Earlier(less, a, b) && Earlier(less, b, c) ensures Earlier(less, a, c) {
      assert less(a.runId, b.runId) && less(b.runId, c.runId) ==> less(a.runId, c.runId);
    }
  }

  /** The canonical entry does not depend on the order of the ledger. */
  lemma CanonicalIgnoresOrder(less: Order, one: seq<Entry>, other: seq<Entry>)
    requires TotalOrder(less) && DistinctRuns(one)
    requires multiset(one) == multiset(other)
    ensures SelectCanonical(less, one) == SelectCanonical(less, other)
  {
    CompletionOrderIsStrict(less, one);
    SortIgnoresOrder(ByCompletion(less), one, other);
  }

  lemma {:induction false} LastPassed(entries: seq<Entry>)
    ensures PassedOnly(entries) == [] ==> forall e :: e in entries ==> !e.body.verdict.Passed?
    ensures PassedOnly(entries) != [] ==>
              exists k ::
                && 0 <= k < |entries| && entries[k] == PassedOnly(entries)[|PassedOnly(entries)| - 1]
                && entries[k].body.verdict.Passed?
                && forall j :: k < j < |entries| ==> !entries[j].body.verdict.Passed?
  {
    if entries != [] {
      var n := |entries| - 1;
      var front := PassedOnly(entries[..n]);
      LastPassed(entries[..n]);
      if entries[n].body.verdict.Passed? {
        assert entries[n] == PassedOnly(entries)[|PassedOnly(entries)| - 1];
      } else if front != [] {
        assert PassedOnly(entries) == front;
        var k :| 0 <= k < n && entries[..n][k] == front[|front| - 1] && entries[..n][k].body.verdict.Passed?
                 && forall j :: k < j < n ==> !entries[..n][j].body.verdict.Passed?;
        assert entries[k] == front[|front| - 1];
        assert forall j :: k < j < n ==> entries[j] == entries[..n][j];
      } else {
        assert PassedOnly(entries) == [];
        assert forall e :: e in entries ==> e in entries[..n] || e == entries[n];
      }
    }
  }

  /** A better choice: passed when the other is not, or of the same kind and later. */
  predicate Beats(less: Order, a: Entry, b: Entry) {
    if a.body.verdict == b.body.verdict then Earlier(less, b, a) else a.body.verdict.Passed?
  }

  /** The canonical entry is the latest passed one, or the latest of all when none passed. */
  lemma CanonicalIsUnbeaten(less: Order, entries: seq<Entry>)
    requires TotalOrder(less) && DistinctRuns(entries)
    ensures SelectCanonical(less, entries).None? <==> entries == []
    ensures entries != [] ==>
              var chosen := SelectCanonical(less, entries).value;
              chosen in entries && forall e :: e in entries && e != chosen ==> Beats(less, chosen, e)
  {
    if entries != [] {
      var sorted := Sort(ByCompletion(less), entries);
      forall e ensures e in entries <==> e in sorted {
        assert e in multiset(entries) <==> e in multiset(sorted);
      }
      CompletionOrderIsStrict(less, sorted);
      SortIsSorted(ByCompletion(less), entries);
      var k := ChosenIsLatest(sorted);
      forall e | e in entries && e != sorted[k] ensures Beats(less, sorted[k], e) {
        LatestBeats(less, sorted, k, e);
      }
    }
  }

  /** The k-th entry is the last passed one, or the last of all when none passed. */
  predicate LatestAt(sorted: seq<Entry>, k: nat) {
    && k < |sorted|
    && (forall j :: k < j < |sorted| ==> sorted[j].body.verdict != sorted[k].body.verdict)
    && (!sorted[k].body.verdict.Passed? ==> forall e :: e in sorted ==> !e.body.verdict.Passed?)
  }

  lemma ChosenIsLatest(sorted: seq<Entry>) returns (k: nat)
    requires sorted != []
    ensures LatestAt(sorted, k)
    ensures Some(sorted[k]) == if PassedOnly(sorted) != [] then LastOf(PassedOnly(sorted)) else LastOf(sorted)
  {
    LastPassed(sorted);
    if PassedOnly(sorted) == [] {
      k := |sorted| - 1;
    } else {
      var i :| 0 <= i < |sorted| && sorted[i] == PassedOnly(sorted)[|PassedOnly(sorted)| - 1]
               && sorted[i].body.verdict.Passed? && forall j :: i < j < |sorted| ==> !sorted[j].body.verdict.Passed?;
      k := i;
    }
  }

  lemma LatestBeats(less: Order, sorted: seq<Entry>, k: nat, e: Entry)
    requires Separates(ByCompletion(less), sorted) && Sorted(ByCompletion(less), sorted)
    requires LatestAt(sorted, k) && e in sorted && e != sorted[k]
    ensures Beats(less, sorted[k], e)
  {
    var i :| 0 <= i < |sorted| && sorted[i] == e;
    if e.body.verdict == sorted[k].body.verdict {
      assert i < k;
      assert !ByCompletion(less)(sorted[k], sorted[i]);
      assert ByCompletion(less)(sorted[i], sorted[k]);
    }
  }
}
