/** What the battle state machine guarantees, stated over the answer script and the action trace. */
module PolicyFacts {
  import opened Policy

  /** `k` full card-change attempts: each clicks "card_change" and then "confirm". */
  function Rounds(k: nat): seq<Action> {
    if k == 0 then [] else [Click("card_change"), Click("confirm")] + Rounds(k - 1)
  }

  /** A click that finds its landmark consumes one answer and appends one click. */
  lemma ClickTargetFound(script: Script, io: Io, name: string)
    requires Obs(script, io, 0)
    ensures ClickTarget(script, io, name) == Step(true, Io(io.cursor + 1, io.trace + [Click(name)]))
  {
  }

  /** A click that misses its landmark consumes one answer and appends nothing. */
  lemma ClickTargetMissing(script: Script, io: Io, name: string)
    requires !Obs(script, io, 0)
    ensures ClickTarget(script, io, name) == Step(false, Skip(io, 1))
  {
  }

  /**
   * A chain of nested click tests clicks a prefix of its landmarks: every one it
   * clicked was found, the first one it did not click was not, and one answer is
   * consumed per landmark tried.
   */
  predicate StopsAtFirstMissing(script: Script, io: Io, names: seq<string>) {
    match Chain(script, io, names)
    case Step(k, after) =>
      && (forall i :: 0 <= i < k ==> Obs(script, io, i))
      && (k < |names| ==> !Obs(script, io, k))
      && after == Io(io.cursor + if k < |names| then k + 1 else k, io.trace + Clicks(names[..k]))
  }

  lemma {:induction false} ChainStopsAtFirstMissing(script: Script, io: Io, names: seq<string>)
    ensures StopsAtFirstMissing(script, io, names)
    decreases |names|
  {
    if names == [] {
    } else if !Obs(script, io, 0) {
      ClickTargetMissing(script, io, names[0]);
    } else {
      ChainStopsAtFirstMissing(script, Io(io.cursor + 1, io.trace + [Click(names[0])]), names[1..]);
      ChainGoesOn(script, io, names);
    }
  }

  /** A chain whose first landmark is found clicks it and goes on with the rest. */
  lemma ChainGoesOn(script: Script, io: Io, names: seq<string>)
    requires names != [] && Obs(script, io, 0)
    requires StopsAtFirstMissing(script, Io(io.cursor + 1, io.trace + [Click(names[0])]), names[1..])
    ensures StopsAtFirstMissing(script, io, names)
  {
    ClickTargetFound(script, io, names[0]);
    var t := Io(io.cursor + 1, io.trace + [Click(names[0])]);
    var k := Chain(script, t, names[1..]).value;
    assert Chain(script, io, names) == Step(k + 1, Chain(script, t, names[1..]).next);
    ClicksPrefixSplit(names, k);
    forall i | 0 < i < k + 1 ensures Obs(script, io, i) {
      assert Obs(script, t, i - 1);
    }
  }

  /** The clicks of a non-empty prefix: the first landmark, then a prefix of the rest. */
  lemma ClicksPrefixSplit(names: seq<string>, k: nat)
    requires k < |names|
    ensures Clicks(names[..k + 1]) == [Click(names[0])] + Clicks(names[1..][..k])
  {
  }

  lemma RoundsFacts(k: nat)
    ensures Click("cancel") !in Rounds(k)
    ensures multiset(Rounds(k))[Click("card_change")] == k
  {
  }

  /** How far into an attempt the "card_change" query comes: after "kill", and after "cancel" when a kill was seen. */
  function ChangeAt(script: Script, at: nat): nat {
    if Answer(script, at) then 2 else 1
  }

  /** How one card-change attempt goes, read off the script from position `at`. */
  datatype Try = Cancels | NoChangeButton | NoConfirmButton | Changed

  function TryAt(script: Script, at: nat): Try {
    if Answer(script, at) && Answer(script, at + 1) then Cancels
    else if !Answer(script, at + ChangeAt(script, at)) then NoChangeButton
    else if !Answer(script, at + ChangeAt(script, at) + 1) then NoConfirmButton
    else Changed
  }

  /** The state after an attempt that clicked both "card_change" and "confirm". */
  function AfterChange(script: Script, io: Io): Io {
    Io(io.cursor + ChangeAt(script, io.cursor) + 2, io.trace + Rounds(1))
  }

  /** An attempt that sees a kill and clicks "cancel" finishes with True. */
  lemma AttemptCancels(script: Script, io: Io)
    requires TryAt(script, io.cursor) == Cancels
    ensures CardChangeAttempt(script, io) == Step(Finished(true), Io(io.cursor + 2, io.trace + [Click("cancel")]))
  {
  }

  /** An attempt that does not cancel goes on to change cards after its one or two queries. */
  lemma AttemptGoesOn(script: Script, io: Io)
    requires TryAt(script, io.cursor) != Cancels
    ensures CardChangeAttempt(script, io) == ChangeCards(script, Skip(io, ChangeAt(script, io.cursor)))
  {
  }

  /** No "card_change" button: the attempt finishes with False and no click. */
  lemma AttemptNoChange(script: Script, io: Io)
    requires TryAt(script, io.cursor) == NoChangeButton
    ensures CardChangeAttempt(script, io) == Step(Finished(false), Skip(io, ChangeAt(script, io.cursor) + 1))
  {
    AttemptGoesOn(script, io);
  }

  /** "card_change" clicked but no "confirm" button: the attempt finishes with False. */
  lemma AttemptNoConfirm(script: Script, io: Io)
    requires TryAt(script, io.cursor) == NoConfirmButton
    ensures CardChangeAttempt(script, io)
         == Step(Finished(false), Io(io.cursor + ChangeAt(script, io.cursor) + 2, io.trace + [Click("card_change")]))
  {
    AttemptGoesOn(script, io);
  }

  /** Both clicked: the loop goes on to the next attempt. */
  lemma AttemptChanged(script: Script, io: Io)
    requires TryAt(script, io.cursor) == Changed
    ensures CardChangeAttempt(script, io) == Step(Retry, AfterChange(script, io))
  {
    AttemptGoesOn(script, io);
    assert io.trace + [Click("card_change")] + [Click("confirm")] == io.trace + Rounds(1);
  }

  /** How the card-change loop ended; an exhausted loop returns its final kill check. */
  datatype Ending = Cancelled | ChangeMissing | ConfirmMissing | Exhausted(recheck: bool)

  /** What `_handle_card_change` returns for each ending. */
  function Verdict(e: Ending): bool {
    match e
    case Cancelled => true
    case Exhausted(recheck) => recheck
    case _ => false
  }

  /** The clicks of the last, unfinished attempt. */
  function EndingClicks(e: Ending): seq<Action> {
    match e
    case Cancelled => [Click("cancel")]
    case ConfirmMissing => [Click("card_change")]
    case _ => []
  }

  /**
   * The card-change loop read off the answer script: how many full attempts
   * (both "card_change" and "confirm" clicked) it makes from attempt `attempt`
   * on, answers being consumed from position `at`, and how it then ends. It
   * makes every remaining attempt exactly when it ends exhausted.
   */
  function LoopEnd(script: Script, at: nat, attempt: nat): (r: (nat, Ending))
    requires attempt <= MaxCardChange
    ensures r.0 <= MaxCardChange - attempt
    ensures r.1.Exhausted? <==> r.0 == MaxCardChange - attempt
    decreases MaxCardChange - attempt
  {
    if attempt == MaxCardChange then (0, Exhausted(Answer(script, at)))
    else
      match TryAt(script, at)
      case Cancels => (0, Cancelled)
      case NoChangeButton => (0, ChangeMissing)
      case NoConfirmButton => (0, ConfirmMissing)
      case Changed =>
        var rest := LoopEnd(script, at + ChangeAt(script, at) + 2, attempt + 1);
        (rest.0 + 1, rest.1)
  }

  /** Every click of a loop that made `r.0` full attempts and then ended as `r.1`. */
  function Trail(r: (nat, Ending)): seq<Action> {
    Rounds(r.0) + EndingClicks(r.1)
  }

  /** The loop's clicks are those its ending on the script describes. */
  lemma {:induction false} LoopTrace(script: Script, io: Io, attempt: nat)
    requires attempt <= MaxCardChange
    ensures CardChangeFrom(script, io, attempt).next.trace == io.trace + Trail(LoopEnd(script, io.cursor, attempt))
    decreases MaxCardChange - attempt
  {
    if attempt == MaxCardChange {
      assert Trail(LoopEnd(script, io.cursor, attempt)) == [];
    } else if TryAt(script, io.cursor) != Changed {
      FinishedTrace(script, io, attempt);
    } else {
      LoopTrace(script, AfterChange(script, io), attempt + 1);
      ChangedTrace(script, io, attempt);
    }
  }

  /** An attempt that finishes leaves the clicks of its own ending. */
  lemma FinishedTrace(script: Script, io: Io, attempt: nat)
    requires attempt < MaxCardChange && TryAt(script, io.cursor) != Changed
    ensures CardChangeFrom(script, io, attempt).next.trace == io.trace + Trail(LoopEnd(script, io.cursor, attempt))
  {
    match TryAt(script, io.cursor)
    case Cancels => AttemptCancels(script, io);
    case NoChangeButton => AttemptNoChange(script, io);
    case NoConfirmButton => AttemptNoConfirm(script, io);
  }

  /** An attempt that goes on adds one full round in front of the clicks of the next attempts. */
  lemma ChangedTrace(script: Script, io: Io, attempt: nat)
    requires attempt < MaxCardChange && TryAt(script, io.cursor) == Changed
    requires var t := AfterChange(script, io);
      CardChangeFrom(script, t, attempt + 1).next.trace == t.trace + Trail(LoopEnd(script, t.cursor, attempt + 1))
    ensures CardChangeFrom(script, io, attempt).next.trace == io.trace + Trail(LoopEnd(script, io.cursor, attempt))
  {
    AttemptChanged(script, io);
    OneMoreRound(io.trace, LoopEnd(script, AfterChange(script, io).cursor, attempt + 1));
  }

  lemma OneMoreRound(before: seq<Action>, r: (nat, Ending))
    ensures before + Rounds(1) + Trail(r) == before + Trail((r.0 + 1, r.1))
  {
    assert Rounds(r.0 + 1) == Rounds(1) + Rounds(r.0);
  }

  /** The loop returns what its ending on the script says. */
  lemma {:induction false} LoopVerdict(script: Script, io: Io, attempt: nat)
    requires attempt <= MaxCardChange
    ensures CardChangeFrom(script, io, attempt).value == Verdict(LoopEnd(script, io.cursor, attempt).1)
    decreases MaxCardChange - attempt
  {
    if attempt == MaxCardChange {
    } else {
      match TryAt(script, io.cursor)
      case Cancels => AttemptCancels(script, io);
      case NoChangeButton => AttemptNoChange(script, io);
      case NoConfirmButton => AttemptNoConfirm(script, io);
      case Changed =>
        AttemptChanged(script, io);
        LoopVerdict(script, AfterChange(script, io), attempt + 1);
    }
  }

  /**
   * `_handle_card_change` clicks "card_change" at most `MaxCardChange` times; it
   * clicks "cancel" only as its last action and then returns True; it returns True
   * without a cancel only after every attempt has been made.
   */
  lemma CardChangeOutcome(script: Script, io: Io) returns (acts: seq<Action>)
    ensures var r := CardChange(script, io);
      && r.next.trace == io.trace + acts
      && multiset(acts)[Click("card_change")] <= MaxCardChange
      && (Click("cancel") in acts ==> r.value && acts[|acts| - 1] == Click("cancel"))
      && (r.value && Click("cancel") !in acts ==> acts == Rounds(MaxCardChange))
  {
    var ending := LoopEnd(script, io.cursor, 0);
    LoopTrace(script, io, 0);
    LoopVerdict(script, io, 0);
    acts := Trail(ending);
    EndingFacts(ending);
  }

  /** The clicks of a loop that ended as `LoopEnd` allows, as a plain list of actions. */
  lemma EndingFacts(r: (nat, Ending))
    requires r.0 <= MaxCardChange && (r.1.Exhausted? <==> r.0 == MaxCardChange)
    ensures var acts := Trail(r);
      && multiset(acts)[Click("card_change")] <= MaxCardChange
      && (Click("cancel") in acts ==> Verdict(r.1) && acts[|acts| - 1] == Click("cancel"))
      && (Verdict(r.1) && Click("cancel") !in acts ==> acts == Rounds(MaxCardChange))
  {
    RoundsFacts(r.0);
    var acts := Trail(r);
    assert multiset(acts) == multiset(Rounds(r.0)) + multiset(EndingClicks(r.1));
  }

  /** A kill already in hand and a cancel button on screen: one click on "cancel", then True. */
  lemma KillInHandCancels(script: Script, io: Io)
    requires Obs(script, io, 0) && Obs(script, io, 1)
    ensures CardChange(script, io) == Step(true, Io(io.cursor + 2, io.trace + [Click("cancel")]))
  {
    AttemptCancels(script, io);
  }

  /** A kill seen but no cancel button: the loop goes on to change cards. */
  lemma CancelMissingChangesCards(script: Script, io: Io) returns (rest: seq<Action>)
    requires Obs(script, io, 0) && !Obs(script, io, 1)
    ensures var r := CardChange(script, io);
      if Obs(script, io, 2) then r.next.trace == io.trace + [Click("card_change")] + rest
      else r == Step(false, Skip(io, 3))
  {
    if !Obs(script, io, 2) {
      AttemptNoChange(script, io);
      rest := [];
    } else {
      LoopTrace(script, io, 0);
      var acts := Trail(LoopEnd(script, io.cursor, 0));
      assert acts[0] == Click("card_change");
      rest := acts[1..];
      SplitFirst(io.trace, acts);
    }
  }

  /** An appended non-empty list splits into its first action and the rest. */
  lemma SplitFirst(before: seq<Action>, acts: seq<Action>)
    requires |acts| > 0
    ensures before + acts == before + [acts[0]] + acts[1..]
  {
  }

  /** The final fresh kill check after three full attempts can succeed. */
  lemma FinalRecheckCanSucceed(script: Script)
    requires script == [false, true, true, false, true, true, false, true, true, true]
    ensures CardChange(script, Io(0, [])).value
    ensures CardChange(script, Io(0, [])).next.trace == Rounds(3)
  {
    LoopTrace(script, Io(0, []), 0);
    LoopVerdict(script, Io(0, []), 0);
    assert LoopEnd(script, 9, 3) == (0, Exhausted(true));
    assert TryAt(script, 6) == Changed;
    assert LoopEnd(script, 6, 2) == (1, Exhausted(true));
    assert TryAt(script, 3) == Changed;
    assert LoopEnd(script, 3, 1) == (2, Exhausted(true));
    assert TryAt(script, 0) == Changed;
  }
}
