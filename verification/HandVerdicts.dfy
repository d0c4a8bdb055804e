/**
 * What the deterministic verifier answers (src/hands/verifier.ts:96-207), receipt kind by
 * receipt kind: on which one look outside the verdict turns, and which receipts are
 * refused whatever is found there.
 */
module HandVerdicts {
  import opened Common
  import opened Text
  import opened HandContract

  // ── Parts of a text ───────────────────────────────────────────────────

  /** A text includes exactly its parts. */
  lemma IncludesIff(s: string, part: string)
    ensures Includes(s, part) <==> exists before: string, after: string :: s == before + part + after
  {
    if Includes(s, part) {
      var i :| 0 <= i <= |s| && StartsWith(s[i..], part);
      assert s == s[..i] + part + s[i + |part|..];
    }
    if before: string, after: string :| s == before + part + after {
      assert s[|before|..][..|part|] == part;
      assert StartsWith(s[|before|..], part);
    }
  }

  lemma {:induction false} TrimIsNoLonger(s: string)
    ensures |Trim(s)| <= |s|
    decreases |s|
  {
    if s != "" && IsWhitespace(s[0]) {
      TrimIsNoLonger(s[1..]);
    } else if s != "" && IsWhitespace(s[|s| - 1]) {
      TrimIsNoLonger(s[..|s| - 1]);
    }
  }

  // ── The one look ──────────────────────────────────────────────────────

  /** The cited path, if any, is not protected. */
  predicate Unguarded(policy: Policy, r: Receipt) {
    r.ref.Some? ==> !policy.isProtected(r.ref.value)
  }

  /** A receipt for a file is accepted exactly if the file is there. */
  lemma FileExistsTurnsOnItsFile(policy: Policy, env: Environment, r: Receipt)
    requires ReceiptOk(r) && r.kind.FileExists? && Unguarded(policy, r)
    ensures Verify(policy, env.(fileExists := path => path == r.ref.value || env.fileExists(path)), r)
    ensures !Verify(policy, env.(fileExists := path => path != r.ref.value && env.fileExists(path)), r)
  {}

  /** A receipt for a commit is accepted exactly if its reference names an object that is one. */
  lemma CommitExistsTurnsOnItsObject(policy: Policy, env: Environment, r: Receipt, found: Option<string>)
    requires ReceiptOk(r) && r.kind.CommitExists? && Unguarded(policy, r)
    ensures Verify(policy, env.(gitType := ref => if ref == r.ref.value then found else env.gitType(ref)), r)
       <==> found == Some("commit")
  {}

  /** A receipt for a file's content is accepted exactly if the file can be read and has the text in it. */
  lemma FileContainsTurnsOnItsFile(policy: Policy, env: Environment, r: Receipt, found: Option<string>)
    requires ReceiptOk(r) && r.kind.FileContains? && Unguarded(policy, r)
    ensures Verify(policy, env.(readFile := path => if path == r.ref.value then found else env.readFile(path)), r)
       <==> found.Some? && exists before: string, after: string ::
              found.value == before + r.expectedSubstring.value + after
  {
    TrimIsNoLonger(r.expectedSubstring.value);
    if found.Some? {
      IncludesIff(found.value, r.expectedSubstring.value);
    }
  }

  /** A receipt for a command is accepted exactly if the command runs and has the text in its output. */
  lemma CommandOutputTurnsOnItsCommand(policy: Policy, env: Environment, r: Receipt, found: Option<string>)
    requires ReceiptOk(r) && r.kind.CommandOutputMatch? && Unguarded(policy, r)
    requires !policy.isProtected(r.command.value) && policy.isAllowlisted(r.command.value)
    ensures Verify(policy, env.(run := command => if command == r.command.value then found else env.run(command)), r)
       <==> found.Some? && exists before: string, after: string ::
              found.value == before + r.expectedSubstring.value + after
  {
    TrimIsNoLonger(r.expectedSubstring.value);
    if found.Some? {
      IncludesIff(found.value, r.expectedSubstring.value);
    }
  }

  /** Two environments that show the same where this receipt is looked up. */
  predicate AgreeOn(a: Environment, b: Environment, r: Receipt) {
    && (r.kind.FileExists? && r.ref.Some? ==> a.fileExists(r.ref.value) == b.fileExists(r.ref.value))
    && (r.kind.CommitExists? && r.ref.Some? ==> a.gitType(r.ref.value) == b.gitType(r.ref.value))
    && (r.kind.FileContains? && r.ref.Some? ==> a.readFile(r.ref.value) == b.readFile(r.ref.value))
    && (r.kind.CommandOutputMatch? && r.command.Some? ==> a.run(r.command.value) == b.run(r.command.value))
  }

  /** Nothing else outside matters. */
  lemma OnlyItsLookMatters(policy: Policy, a: Environment, b: Environment, r: Receipt)
    requires AgreeOn(a, b, r)
    ensures Verify(policy, a, r) == Verify(policy, b, r)
  {}

  /** No file, no commit, nothing to read and no command that runs. */
  ghost predicate Barren(env: Environment) {
    && (forall path :: !env.fileExists(path)) && (forall ref :: env.gitType(ref) != Some("commit"))
    && (forall path :: env.readFile(path).None?) && (forall command :: env.run(command).None?)
  }

  /** Where there is nothing outside, nothing but a browser action is accepted. */
  lemma NothingOutsideNothingAccepted(policy: Policy, env: Environment, r: Receipt)
    requires Barren(env)
    ensures Verify(policy, env, r) ==> r.kind.BrowserAction?
  {}

  // ── Refused whatever is outside ───────────────────────────────────────

  predicate CitesProtected(policy: Policy, r: Receipt) {
    !r.kind.BrowserAction? && r.ref.Some? && r.ref.value != "" && policy.isProtected(r.ref.value)
  }

  predicate RunsForbidden(policy: Policy, r: Receipt) {
    && r.kind.CommandOutputMatch? && r.command.Some?
    && (policy.isProtected(r.command.value) || !policy.isAllowlisted(r.command.value))
  }

  /** A protected path or command is never looked at, nor is a command off the list run. */
  lemma GuardsRefuse(policy: Policy, env: Environment, r: Receipt)
    requires CitesProtected(policy, r) || RunsForbidden(policy, r)
    ensures !Verify(policy, env, r)
  {}

  lemma NarrativesAreRefused(policy: Policy, env: Environment, r: Receipt)
    requires r.kind.Narrative?
    ensures !Verify(policy, env, r)
  {}

  /** The text a browser receipt expects is in one of the results. */
  ghost predicate ResultShows(r: Receipt, text: string) {
    exists i, before: string, after: string ::
      0 <= i < |r.actionResults| && r.actionResults[i].value == Some(before + text + after)
  }

  predicate ResultIncludes(r: Receipt, i: nat, text: string) {
    i < |r.actionResults| && r.actionResults[i].value.Some? && Includes(r.actionResults[i].value.value, text)
  }

  lemma ResultShowsIff(r: Receipt, text: string)
    ensures ResultShows(r, text) <==> exists i: nat :: ResultIncludes(r, i, text)
  {
    if i, before: string, after: string :|
      0 <= i < |r.actionResults| && r.actionResults[i].value == Some(before + text + after)
    {
      IncludesIff(r.actionResults[i].value.value, text);
      assert ResultIncludes(r, i, text);
    }
    if i: nat :| ResultIncludes(r, i, text) {
      IncludesIff(r.actionResults[i].value.value, text);
      var before: string, after: string :| r.actionResults[i].value.value == before + text + after;
    }
  }

  /** A browser receipt speaks for itself: no action may have failed, and the text it expects was seen. */
  lemma BrowserActionsSpeakForThemselves(policy: Policy, env: Environment, r: Receipt)
    requires ReceiptOk(r) && r.kind.BrowserAction?
    ensures Verify(policy, env, r) <==>
      && (forall result :: result in r.actionResults ==> result.success)
      && (r.expectedSubstring.Some? ==> ResultShows(r, r.expectedSubstring.value))
  {
    if r.expectedSubstring.Some? {
      var text := r.expectedSubstring.value;
      ResultShowsIff(r, text);
      SomeResultIncludes(r, text);
    }
  }

  lemma SomeResultIncludes(r: Receipt, text: string)
    ensures (exists i: nat :: ResultIncludes(r, i, text)) <==>
      exists i :: 0 <= i < |r.actionResults| && r.actionResults[i].value.Some?
                  && Includes(r.actionResults[i].value.value, text)
  {
    forall i | 0 <= i < |r.actionResults|
      ensures ResultIncludes(r, i, text) <==>
        r.actionResults[i].value.Some? && Includes(r.actionResults[i].value.value, text)
    {}
  }

  /** A browser receipt without actions, or without results, is never accepted. */
  lemma NoActionsNothingAccepted(policy: Policy, env: Environment, r: Receipt)
    requires r.kind.BrowserAction? && (r.actions == [] || r.actionResults == [])
    ensures !Verify(policy, env, r) && !ReceiptOk(r)
  {}

  lemma AFailedActionIsNeverAccepted(policy: Policy, env: Environment, r: Receipt, i: nat)
    requires r.kind.BrowserAction? && i < |r.actionResults| && !r.actionResults[i].success
    ensures !Verify(policy, env, r)
  {}

  // ── The second opinion ────────────────────────────────────────────────

  /** Without risk the second look is not taken; else it must confirm the first. */
  lemma TheSecondLookConfirms(policy: Policy, first: Environment, second: Environment, risk: DelegationRisk, r: Receipt)
    ensures var primary := Verify(policy, first, r);
      var refuter := RunRefuter(policy, second, risk, r, primary);
      && (refuter.triggered <==> risk != LowRisk)
      && (primary && (!refuter.triggered || refuter.passed) <==>
          Verify(policy, first, r) && (risk == LowRisk || Verify(policy, second, r)))
  {}
}
