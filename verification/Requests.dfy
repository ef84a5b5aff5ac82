/** What the requests of a command tell of it: what it asked of the forge, and how that went. */
module Requests {
  import opened Text
  import opened ForgeModel
  import opened Compare
  import opened ForgeApi

  // ------------------------------------------------------------ writes

  /** Between these two logs of requests there is one that changes, or makes, this repository. */
  ghost predicate Attempted(a: seq<Event>, b: seq<Event>, name: string) {
    a <= b && exists k :: |a| <= k < |b| && ChangesIt(b[k], name)
  }

  predicate ChangesIt(e: Event, name: string) {
    e.name == name && (e.Sent? || (e.Wrote? && !e.step.WaitPushed?))
  }

  lemma AttemptedEarlier(a: seq<Event>, b: seq<Event>, c: seq<Event>, name: string)
    requires Attempted(a, b, name) && b <= c
    ensures Attempted(a, c, name)
  {
    var k :| |a| <= k < |b| && ChangesIt(b[k], name);
    assert ChangesIt(c[k], name);
  }

  lemma AttemptedLater(a: seq<Event>, b: seq<Event>, c: seq<Event>, name: string)
    requires a <= b && Attempted(b, c, name)
    ensures Attempted(a, c, name)
  {
  }

  /** If there is any between them, the first changes it. */
  predicate StartsChanging(a: seq<Event>, b: seq<Event>, name: string) {
    a <= b && (b != a ==> ChangesIt(b[|a|], name))
  }

  lemma ChangesOn(a: seq<Event>, b: seq<Event>, c: seq<Event>, name: string)
    requires StartsChanging(a, b, name) && b <= c && (b == a ==> StartsChanging(b, c, name))
    ensures StartsChanging(a, c, name)
    ensures c != a ==> Attempted(a, c, name)
  {
  }

  /** A write that was refused, or got no answer. */
  predicate WentWrong(e: Event) {
    (e.Wrote? || e.Lifting? || e.Deleting? || e.Removing?) && !e.ok
  }

  /** Only writes, and what is reported of them is how the last of them was answered; without any, all is well. */
  ghost predicate Reported(a: seq<Event>, b: seq<Event>, ok: bool) {
    NoLooks(a, b) && (ok <==> (b == a || !WentWrong(b[|b| - 1])))
  }

  lemma ReportedOn(a: seq<Event>, b: seq<Event>, c: seq<Event>, ok: bool)
    requires Reported(a, b, true) && Reported(b, c, ok)
    ensures Reported(a, c, ok)
  {
  }

  /**
   * Whatever can keep a command from what it set out to do: a write that went wrong, or a create or a
   * look that did not come to a repository.
   */
  predicate Hinders(e: Event) {
    WentWrong(e) || (e.Sent? && e.answer != Made) || (e.Looked? && !(e.answered && e.found))
  }

  /** Between these two logs of requests there is one that hindered the command. */
  ghost predicate Hindered(a: seq<Event>, b: seq<Event>) {
    a <= b && exists k :: |a| <= k < |b| && Hinders(b[k])
  }

  lemma HinderedEarlier(a: seq<Event>, b: seq<Event>, c: seq<Event>)
    requires Hindered(a, b) && b <= c
    ensures Hindered(a, c)
  {
    var k :| |a| <= k < |b| && Hinders(b[k]);
    assert Hinders(c[k]);
  }

  lemma HinderedLater(a: seq<Event>, b: seq<Event>, c: seq<Event>)
    requires a <= b && Hindered(b, c)
    ensures Hindered(a, c)
  {
  }

  lemma LastHinders(a: seq<Event>, b: seq<Event>)
    requires Reported(a, b, false)
    ensures Hindered(a, b)
  {
    assert Hinders(b[|b| - 1]);
  }

  /** No look between these two logs went without an answer. */
  ghost predicate AllAnswered(a: seq<Event>, b: seq<Event>) {
    a <= b && forall k :: |a| <= k < |b| && b[k].Looked? ==> b[k].answered
  }

  predicate Looks(e: Event, name: string) {
    e.Looked? && e.name == name
  }

  /** Between these two logs this repository was looked up. */
  ghost predicate LookedUp(a: seq<Event>, b: seq<Event>, name: string) {
    a <= b && exists k :: |a| <= k < |b| && Looks(b[k], name)
  }

  // ------------------------------------------------------------ looks

  /** A lookup that was answered, and found nothing. */
  predicate FoundNothing(e: Event) {
    e.Looked? && e.answered && !e.found
  }

  predicate OnlyLooks(log: seq<Event>) {
    forall k :: 0 <= k < |log| ==> log[k].Looked?
  }

  /** Between these two logs of requests there are only reads. */
  predicate OnlyRead(a: seq<Event>, b: seq<Event>) {
    a <= b && OnlyLooks(b[|a|..])
  }

  lemma ReadOn(a: seq<Event>, b: seq<Event>, looks: seq<Event>)
    requires OnlyRead(a, b) && OnlyLooks(looks)
    ensures OnlyRead(a, b + looks)
  {
    assert (b + looks)[|a|..] == b[|a|..] + looks;
  }

  lemma ReadingFailsNothing(a: seq<Event>, b: seq<Event>)
    requires OnlyRead(a, b)
    ensures NoneFailed(a, b)
  {
    forall k | |a| <= k < |b| ensures !WentWrong(b[k]) {
      assert b[|a|..][k - |a|].Looked?;
    }
  }

  lemma LooksTell(a: seq<Event>, b: seq<Event>, looks: seq<Event>, name: string, answered: bool, found: bool)
    requires a <= b && looks != [] && looks[|looks| - 1] == Looked(name, answered, found)
    requires forall k :: 0 <= k < |looks| - 1 ==> FoundNothing(looks[k])
    ensures AllAnswered(a, b + looks) <==> AllAnswered(a, b) && answered
    ensures LookedUp(a, b + looks, name)
    ensures found || Hindered(a, b + looks)
  {
    var n := |b| + |looks| - 1;
    assert (b + looks)[n] == looks[|looks| - 1];
    assert Looks((b + looks)[n], name) && (!found ==> Hinders((b + looks)[n]));
    if AllAnswered(a, b + looks) {
      forall k | |a| <= k < |b| && b[k].Looked? ensures b[k].answered {
        assert (b + looks)[k] == b[k];
      }
    }
  }

  lemma OneLook(a: seq<Event>, e: Event, ok: bool)
    requires e.Looked? && e.answered == ok
    ensures WellOrHindered(a, a + [e], ok)
  {
    assert !ok ==> Hinders((a + [e])[|a|]);
  }

  lemma UnansweredHinders(a: seq<Event>, b: seq<Event>)
    requires a <= b && !AllAnswered(a, b) && OnlyRead(a, b)
    ensures Hindered(a, b)
  {
    var k :| |a| <= k < |b| && b[k].Looked? && !b[k].answered;
    assert Hinders(b[k]);
  }

  /** Every declared repository was looked up. */
  ghost predicate EachLookedUp(wants: seq<LockRepo>, a: seq<Event>, b: seq<Event>) {
    forall i :: 0 <= i < |wants| ==> LookedUp(a, b, wants[i].name)
  }

  lemma StillLookedUp(wants: seq<LockRepo>, n: nat, a: seq<Event>, b: seq<Event>, c: seq<Event>)
    requires n <= |wants| && b <= c && forall j :: 0 <= j < n ==> LookedUp(a, b, wants[j].name)
    ensures forall j :: 0 <= j < n ==> LookedUp(a, c, wants[j].name)
  {
    forall j | 0 <= j < n ensures LookedUp(a, c, wants[j].name) {
      var k :| |a| <= k < |b| && Looks(b[k], wants[j].name);
      assert Looks(c[k], wants[j].name);
    }
  }

  predicate Finds(e: Event, name: string) {
    Looks(e, name) && e.found
  }

  /** Between these two logs it was looked up, and found. */
  ghost predicate FoundIn(a: seq<Event>, b: seq<Event>, name: string) {
    a <= b && exists k :: |a| <= k < |b| && Finds(b[k], name)
  }

  lemma NothingFound(a: seq<Event>)
    ensures forall x :: !FoundIn(a, a, x)
  {
  }

  lemma FoundEarlier(a: seq<Event>, b: seq<Event>, c: seq<Event>, name: string)
    requires b <= c
    ensures FoundIn(a, b, name) ==> FoundIn(a, c, name)
  {
    if FoundIn(a, b, name) {
      var k :| |a| <= k < |b| && Finds(b[k], name);
      assert Finds(c[k], name);
    }
  }

  lemma FoundOnlyNow(a: seq<Event>, b: seq<Event>, looks: seq<Event>, name: string, answered: bool, found: bool)
    requires a <= b && looks != [] && looks[|looks| - 1] == Looked(name, answered, found)
    requires forall k :: 0 <= k < |looks| - 1 ==> FoundNothing(looks[k])
    ensures forall x :: FoundIn(a, b + looks, x) <==> FoundIn(a, b, x) || (found && x == name)
  {
    var n := |b| + |looks| - 1;
    assert (b + looks)[n] == looks[|looks| - 1];
    forall x ensures FoundIn(a, b + looks, x) <==> FoundIn(a, b, x) || (found && x == name) {
      if FoundIn(a, b, x) {
        var k :| |a| <= k < |b| && Finds(b[k], x);
        assert Finds((b + looks)[k], x);
      }
      if found && x == name {
        assert Finds((b + looks)[n], x);
      }
    }
  }

  /** Between these two logs nothing is looked up. */
  ghost predicate NoLooks(a: seq<Event>, b: seq<Event>) {
    a <= b && forall k :: |a| <= k < |b| ==> !b[k].Looked?
  }

  lemma NoLooksOn(a: seq<Event>, b: seq<Event>, c: seq<Event>)
    requires NoLooks(a, b) && NoLooks(b, c)
    ensures NoLooks(a, c)
  {
    forall k | |a| <= k < |c| ensures !c[k].Looked? {
      assert k < |b| ==> c[k] == b[k];
    }
  }

  /** The last look at this repository between these two logs was answered. */
  ghost predicate LastLookAnswered(a: seq<Event>, b: seq<Event>, name: string) {
    a <= b && exists k :: |a| <= k < |b| && LooksLast(b, k, name) && b[k].answered
  }

  predicate LooksLast(log: seq<Event>, k: nat, name: string)
    requires k < |log|
  {
    Looks(log[k], name) && forall j :: k < j < |log| ==> !Looks(log[j], name)
  }

  lemma StillLast(a: seq<Event>, b: seq<Event>, c: seq<Event>, name: string)
    requires LastLookAnswered(a, b, name) && b <= c && forall k :: |b| <= k < |c| ==> !Looks(c[k], name)
    ensures LastLookAnswered(a, c, name)
  {
    var k :| |a| <= k < |b| && LooksLast(b, k, name) && b[k].answered;
    forall j | k < j < |c| ensures !Looks(c[j], name) {
      assert j < |b| ==> c[j] == b[j];
    }
    assert LooksLast(c, k, name);
  }

  lemma LastLookEarlier(a: seq<Event>, b: seq<Event>, c: seq<Event>, name: string)
    requires a <= b && LastLookAnswered(b, c, name)
    ensures LastLookAnswered(a, c, name)
  {
  }

  lemma WithoutLooks(wants: seq<LockRepo>, a: seq<Event>, b: seq<Event>, c: seq<Event>)
    requires a <= b && NoLooks(b, c)
    ensures forall x :: FoundIn(a, c, x) <==> FoundIn(a, b, x)
    ensures AllAnswered(a, c) <==> AllAnswered(a, b)
    ensures EachLookedUp(wants, a, b) ==> EachLookedUp(wants, a, c)
  {
    forall x ensures FoundIn(a, c, x) <==> FoundIn(a, b, x) {
      if FoundIn(a, b, x) {
        var k :| |a| <= k < |b| && Finds(b[k], x);
        assert Finds(c[k], x);
      }
      if FoundIn(a, c, x) {
        var k :| |a| <= k < |c| && Finds(c[k], x);
        assert k < |b| && Finds(b[k], x);
      }
    }
    if AllAnswered(a, c) {
      forall k | |a| <= k < |b| && b[k].Looked? ensures b[k].answered {
        assert c[k] == b[k];
      }
    }
    if EachLookedUp(wants, a, b) {
      StillLookedUp(wants, |wants|, a, b, c);
    }
  }

  // ------------------------------------------------------------ a whole fleet

  /** All is well, or something kept it from being so. */
  ghost predicate WellOrHindered(a: seq<Event>, b: seq<Event>, ok: bool) {
    a <= b && (ok || Hindered(a, b))
  }

  lemma NothingHinders(a: seq<Event>)
    ensures WellOrHindered(a, a, true)
  {
  }

  lemma AllWellSoFar(a: seq<Event>)
    ensures Reported(a, a, true)
  {
  }

  lemma ReportsGrow(a: seq<Event>, b: seq<Event>, ok: bool)
    ensures Reported(a, b, ok) ==> a <= b
  {
  }

  lemma WellOneMore(a: seq<Event>, b: seq<Event>, c: seq<Event>, all: bool, ok: bool)
    requires WellOrHindered(a, b, all) && (Reported(b, c, ok) || WellOrHindered(b, c, ok))
    ensures a <= b <= c && WellOrHindered(a, c, all && ok)
  {
    hide Reported, Hindered;
    assert b <= c by {
      ReportsGrow(b, c, ok);
    }
    if !all {
      HinderedEarlier(a, b, c);
    } else if !ok {
      if Reported(b, c, ok) {
        LastHinders(b, c);
      }
      HinderedLater(a, b, c);
    }
  }

  lemma NotWell(a: seq<Event>, b: seq<Event>)
    requires WellOrHindered(a, b, false)
    ensures Hindered(a, b)
  {
  }

  /** A look keeps nothing from going on. */
  lemma LookingIsFine(a: seq<Event>, b: seq<Event>, c: seq<Event>)
    requires WellOrHindered(a, b, true) && b <= c
    ensures a <= b && WellOrHindered(a, c, true)
  {
  }

  /** Of the first `n`, those that are due have been written to. */
  ghost predicate WrittenUpTo(wants: seq<LockRepo>, due: seq<bool>, n: nat, a: seq<Event>, b: seq<Event>) {
    n <= |wants| == |due| && forall i :: 0 <= i < n && due[i] ==> Attempted(a, b, wants[i].name)
  }

  lemma NothingWritten(wants: seq<LockRepo>, due: seq<bool>, a: seq<Event>)
    requires |due| == |wants|
    ensures WrittenUpTo(wants, due, 0, a, a) && WellOrHindered(a, a, true)
  {
  }

  lemma WrittenOneMore(wants: seq<LockRepo>, due: seq<bool>, n: nat, a: seq<Event>, b: seq<Event>, c: seq<Event>)
    requires WrittenUpTo(wants, due, n, a, b) && n < |wants| && a <= b <= c
    requires due[n] ==> Attempted(b, c, wants[n].name)
    ensures WrittenUpTo(wants, due, n + 1, a, c)
  {
    hide Attempted;
    forall i | 0 <= i <= n && due[i] ensures Attempted(a, c, wants[i].name) {
      if i < n {
        AttemptedEarlier(a, b, c, wants[i].name);
      } else {
        AttemptedLater(a, b, c, wants[i].name);
      }
    }
  }

  lemma WrittenStill(wants: seq<LockRepo>, due: seq<bool>, a: seq<Event>, b: seq<Event>, c: seq<Event>)
    requires WrittenUpTo(wants, due, |wants|, a, b) && b <= c
    ensures WrittenUpTo(wants, due, |wants|, a, c)
  {
    hide Attempted;
    forall i | 0 <= i < |wants| && due[i] ensures Attempted(a, c, wants[i].name) {
      AttemptedEarlier(a, b, c, wants[i].name);
    }
  }

  /** Nothing between these two logs was refused, or went unanswered. */
  ghost predicate NoneFailed(a: seq<Event>, b: seq<Event>) {
    a <= b && forall k :: |a| <= k < |b| ==> !WentWrong(b[k])
  }

  lemma NoneFailedOn(a: seq<Event>, b: seq<Event>, c: seq<Event>)
    requires a <= b <= c
    ensures NoneFailed(a, c) <==> NoneFailed(a, b) && NoneFailed(b, c)
  {
    if NoneFailed(a, c) {
      forall k | |a| <= k < |b| ensures !WentWrong(b[k]) {
        assert !WentWrong(c[k]);
      }
    }
    if NoneFailed(a, b) && NoneFailed(b, c) {
      forall k | |a| <= k < |c| ensures !WentWrong(c[k]) {
        assert k < |b| ==> !WentWrong(b[k]);
      }
    }
  }

  lemma NoneFailedBut(a: seq<Event>, b: seq<Event>, e: Event)
    requires a <= b
    ensures NoneFailed(a, b + [e]) <==> NoneFailed(a, b) && !WentWrong(e)
  {
    NoneFailedOn(a, b, b + [e]);
    assert (b + [e])[|b|] == e;
  }
}
