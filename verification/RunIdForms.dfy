/**
 * What a run id looks like (src/operator/run-ledger.ts:17-22, 63-76): the task, the letters
 * and digits of the completion time, and the number after the largest one used, in at least
 * six digits.
 */
module RunIdForms {
  import opened Common
  import opened Decimal
  import opened RunIds
  import OperatorContracts

  predicate AllDigits(s: string) {
    forall i :: 0 <= i < |s| ==> IsDigit(s[i])
  }

  /** Reading a number stops at the first character that is no digit. */
  lemma ANumberIsReadUpToItsEnd(digits: string, rest: string)
    requires digits != "" && AllDigits(digits) && (rest != "" ==> !IsDigit(rest[0]))
    ensures ParseInt(digits + rest) == Some(DigitsValue(digits))
  {
    DigitsEnd(digits, rest);
    assert (digits + rest)[0] == digits[0];
    assert (digits + rest)[..|digits|] == digits;
  }

  lemma {:induction false} DigitsEnd(digits: string, rest: string)
    requires AllDigits(digits) && (rest != "" ==> !IsDigit(rest[0]))
    ensures Digits(digits + rest) == |digits|
  {
    if digits == "" {
      assert digits + rest == rest;
    } else {
      DigitsEnd(digits[1..], rest);
      assert (digits + rest)[1..] == digits[1..] + rest;
    }
  }

  lemma LeadingAre(digits: string, rest: string)
    requires AllDigits(digits) && (rest != "" ==> !IsDigit(rest[0]))
    ensures Leading(digits + rest) == digits
  {
    DigitsEnd(digits, rest);
    assert (digits + rest)[..|digits|] == digits;
  }

  /** A sign in front of the digits is read as such. */
  lemma ASignIsRead(s: string, digits: string, rest: string)
    requires s != "" && s[0] in {'-', '+'} && s[1..] == digits + rest
    requires digits != "" && AllDigits(digits) && (rest != "" ==> !IsDigit(rest[0]))
    ensures var value: int := DigitsValue(digits); ParseInt(s) == Some(if s[0] == '-' then -value else value)
  {
    LeadingAre(digits, rest);
  }

  /** Without a digit in front there is no number. */
  lemma NoDigitNoNumber(s: string)
    requires s == "" || !(IsDigit(s[0]) || s[0] in {'-', '+'})
    ensures ParseInt(s).None?
  {}

  /** The numbers used so far under a prefix. */
  ghost predicate NumberUsed(round: int -> int, prefix: string, entries: seq<Entry>, n: int) {
    exists e, digits: string, rest: string ::
      && e in entries && e.runId == prefix + "." + digits + rest && digits != "" && AllDigits(digits)
      && (rest != "" ==> !IsDigit(rest[0])) && n == round(DigitsValue(digits))
  }

  lemma UsedNumbersAreRead(round: int -> int, prefix: string, e: Entry, digits: string, rest: string)
    requires e.runId == prefix + "." + digits + rest && digits != "" && AllDigits(digits)
    requires rest != "" ==> !IsDigit(rest[0])
    ensures SequenceOf(round, prefix, e.runId) == Some(round(DigitsValue(digits)))
  {
    assert e.runId[|prefix| + 1..] == digits + rest;
    assert e.runId[..|prefix| + 1] == prefix + ".";
    ANumberIsReadUpToItsEnd(digits, rest);
  }

  /**
   * The id built for a run: task, stamp and a number of at least six digits that is larger
   * than every number used so far under that task and stamp, below 2^53 by one than the largest.
   */
  lemma TheIdIsTheNextNumber(round: int -> int, taskId: string, completedAt: string, entries: seq<Entry>)
    returns (digits: string)
    requires Doubles(round) && LastSequence(round, Prefix(taskId, completedAt), entries) < MAX_SAFE
    ensures var prefix := taskId + "." + Stamp(completedAt);
      && BuildRunId(round, taskId, completedAt, entries) == prefix + "." + digits
      && |digits| >= 6 && AllDigits(digits)
      && (forall n :: NumberUsed(round, prefix, entries, n) ==> n < DigitsValue(digits))
      && (DigitsValue(digits) != 1 ==>
            exists e :: e in entries && SequenceOf(round, prefix, e.runId) == Some(DigitsValue(digits) - 1))
      && DigitsValue(digits) >= 1
  {
    var prefix := taskId + "." + Stamp(completedAt);
    var last := LastSequence(round, prefix, entries);
    digits := Pad(Print(last + 1));
    PaddedIsDigits(last + 1);
    forall n | NumberUsed(round, prefix, entries, n) ensures n <= last {
      var e, used: string, rest: string :|
        && e in entries && e.runId == prefix + "." + used + rest && used != "" && AllDigits(used)
        && (rest != "" ==> !IsDigit(rest[0])) && n == round(DigitsValue(used));
      UsedNumbersAreRead(round, prefix, e, used, rest);
    }
  }

  // ── Stamps ────────────────────────────────────────────────────────────

  predicate LowerLetterOrDigit(c: char) {
    'a' <= c <= 'z' || '0' <= c <= '9'
  }

  /** A stamp keeps, in order, the letters and digits, letters in lower case, and nothing else. */
  lemma {:induction false} StampsAreJoined(a: string, b: string)
    ensures LowerAlnum(a + b) == LowerAlnum(a) + LowerAlnum(b)
  {
    if a == "" {
      assert a + b == b;
    } else {
      StampsAreJoined(a[1..], b);
      assert (a + b)[1..] == a[1..] + b;
    }
  }

  lemma OneCharacterOfAStamp(c: char)
    ensures LowerLetterOrDigit(c) ==> LowerAlnum([c]) == [c]
    ensures 'A' <= c <= 'Z' ==> |LowerAlnum([c])| == 1 && LowerAlnum([c])[0] as int == c as int + 32
    ensures !LowerLetterOrDigit(c) && !('A' <= c <= 'Z') ==> LowerAlnum([c]) == ""
  {
    assert [c][1..] == "";
  }

  lemma {:induction false} StampsAreShortAndPlain(s: string)
    ensures forall c :: c in LowerAlnum(s) ==> LowerLetterOrDigit(c)
    ensures |Stamp(s)| <= 24 && Stamp(s) <= LowerAlnum(s) && (|LowerAlnum(s)| <= 24 ==> Stamp(s) == LowerAlnum(s))
    ensures |LowerAlnum(s)| >= 24 ==> |Stamp(s)| == 24
  {
    if s != "" {
      StampsAreShortAndPlain(s[1..]);
    }
  }

  // ── The canonical entry ───────────────────────────────────────────────

  /** Entry `e` was completed after `chosen`, or at the same time under a later id. */
  predicate After(less: Order, e: Entry, chosen: Entry) {
    chosen.completedAt < e.completedAt || (chosen.completedAt == e.completedAt && less(chosen.runId, e.runId))
  }

  /** Which entry stands for a task: a passed one if any passed, and of those, or else of all, the last. */
  lemma TheCanonicalEntryIs(less: Order, entries: seq<Entry>)
    requires TotalOrder(less) && DistinctRuns(entries) && entries != []
    ensures SelectCanonical(less, entries).Some?
    ensures var chosen := SelectCanonical(less, entries).value;
      && chosen in entries
      && ((exists e :: e in entries && e.body.verdict == OperatorContracts.Passed) ==>
            && chosen.body.verdict == OperatorContracts.Passed
            && forall e :: e in entries && e.body.verdict == OperatorContracts.Passed ==> !After(less, e, chosen))
      && (chosen.body.verdict != OperatorContracts.Passed ==> forall e :: e in entries ==> !After(less, e, chosen))
  {
    CanonicalIsUnbeaten(less, entries);
    var chosen := SelectCanonical(less, entries).value;
    forall e | e in entries && e.body.verdict == chosen.body.verdict ensures !After(less, e, chosen) {
      if e != chosen {
        assert Beats(less, chosen, e);
      }
    }
    if chosen.body.verdict != OperatorContracts.Passed {
      forall e | e in entries ensures e.body.verdict == chosen.body.verdict {
        assert e != chosen ==> Beats(less, chosen, e);
      }
    }
  }
}
