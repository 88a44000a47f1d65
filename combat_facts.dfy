/** What one combat turn and the combat loop do, read off the answer script. */
module CombatFacts {
  import opened Policy
  import opened PolicyFacts

  /** The arm the branch chain commits to, given the answers from position `at` on (kill, wusheng, then the click tests). */
  function ArmAt(script: Script, at: nat): Branch {
    if Answer(script, at) && !Answer(script, at + 1) then Lethal
    else if Answer(script, at + 2) then DirectKill
    else if Answer(script, at + 3) then AbilityCombo
    else NoMove
  }

  /** The turn breaks out of the loop: no arm applies, or "caocao" is missing right after "kill" was clicked. */
  predicate BreaksAt(script: Script, at: nat) {
    ArmAt(script, at) == NoMove || (ArmAt(script, at) == Lethal && Answer(script, at + 2) && !Answer(script, at + 3))
  }

  /** The landmarks clicked after "kill" in the direct arm and after "wusheng" in the ability arm. */
  const DirectChain: seq<string> := ["li_jue", "confirm"]
  const AbilityChain: seq<string> := ["small_kill", "li_jue", "confirm"]

  /** The first `k` landmarks of `names` are found from `io` on, and the next one, if any, is not. */
  predicate FoundPrefix(script: Script, io: Io, names: seq<string>, k: nat) {
    && k <= |names|
    && (forall i :: 0 <= i < k ==> Obs(script, io, i))
    && (k < |names| ==> !Obs(script, io, k))
  }

  /** An arm that clicks `first` and then a chain of landmarks: a found prefix of the chain, then the centre click. */
  lemma ChainArm(script: Script, io: Io, first: string, names: seq<string>, branch: Branch) returns (k: nat)
    requires Obs(script, io, 0)
    ensures FoundPrefix(script, Skip(io, 1), names, k)
    ensures Pass(Chain(script, ClickTarget(script, io, first).next, names).next, branch)
         == Step(Turn(branch, true), Io(io.cursor + 1 + (if k < |names| then k + 1 else k),
                                        io.trace + [Click(first)] + Clicks(names[..k]) + [ClickCenter]))
  {
    ClickTargetFound(script, io, first);
    var t := Io(io.cursor + 1, io.trace + [Click(first)]);
    ChainStopsAtFirstMissing(script, t, names);
    k := Chain(script, t, names).value;
    forall i | 0 <= i < k ensures Obs(script, Skip(io, 1), i) {
      assert Obs(script, t, i);
    }
  }

  /** The landmarks of the first arm, clicked in order while they are found. */
  const LethalChain: seq<string> := ["kill", "caocao", "confirm"]

  /** How many of kill, caocao, confirm and zhengnan the first arm finds in a row from position `at` on. */
  function LethalReach(script: Script, at: nat): nat {
    if !Answer(script, at) then 0
    else if !Answer(script, at + 1) then 1
    else if !Answer(script, at + 2) then 2
    else if !Answer(script, at + 3) then 3
    else 4
  }

  /**
   * The first arm clicks the found prefix of kill, caocao, confirm; after all
   * three and a zhengnan prompt it clicks "confirm" and "choose_wusheng" where
   * found. It breaks only when "caocao" is missing after "kill" was clicked, and
   * otherwise ends with the one centre click.
   */
  lemma LethalArm(script: Script, io: Io) returns (acts: seq<Action>)
    ensures var r := LethalCombo(script, io); var reach := LethalReach(script, io.cursor);
      && r.value == Turn(Lethal, reach != 1)
      && ClickCenter !in acts
      && r.next.trace == io.trace + acts + (if reach != 1 then [ClickCenter] else [])
      && (reach < 4 ==> acts == Clicks(LethalChain[..reach]))
      && (reach == 4 ==> acts == Clicks(LethalChain)
                                + (if Obs(script, io, 4) then [Click("confirm")] else [])
                                + (if Obs(script, io, 5) then [Click("choose_wusheng")] else []))
  {
    var reach := LethalReach(script, io.cursor);
    if reach == 0 {
      acts := [];
    } else if reach == 1 {
      acts := [Click("kill")];
    } else if reach == 2 {
      acts := [Click("kill"), Click("caocao")];
    } else if reach == 3 {
      acts := [Click("kill"), Click("caocao"), Click("confirm")];
    } else {
      acts := Clicks(LethalChain)
            + (if Obs(script, io, 4) then [Click("confirm")] else [])
            + (if Obs(script, io, 5) then [Click("choose_wusheng")] else []);
      NoCentreInClicks(LethalChain);
    }
  }

  /** Clicks on landmarks are never the centre click. */
  lemma NoCentreInClicks(names: seq<string>)
    ensures ClickCenter !in Clicks(names)
  {
  }

  /**
   * The arms after the first: "kill" then li_jue, confirm; else "wusheng" then
   * small_kill, li_jue, confirm; else no move and a break. Each chain clicks its
   * found prefix; every arm but the last ends with the one centre click.
   */
  lemma OtherArmsFacts(script: Script, io: Io) returns (acts: seq<Action>, k: nat)
    ensures var r := OtherArms(script, io);
      && r.value.branch == (if Obs(script, io, 0) then DirectKill else if Obs(script, io, 1) then AbilityCombo else NoMove)
      && r.value.goOn == (r.value.branch != NoMove)
      && ClickCenter !in acts
      && r.next.trace == io.trace + acts + (if r.value.goOn then [ClickCenter] else [])
      && (r.value.branch == DirectKill ==>
            FoundPrefix(script, Skip(io, 1), DirectChain, k) && acts == [Click("kill")] + Clicks(DirectChain[..k]))
      && (r.value.branch == AbilityCombo ==>
            FoundPrefix(script, Skip(io, 2), AbilityChain, k) && acts == [Click("wusheng")] + Clicks(AbilityChain[..k]))
      && (r.value.branch == NoMove ==> acts == [])
  {
    if Obs(script, io, 0) {
      k := ChainArm(script, io, "kill", DirectChain, DirectKill);
      acts := [Click("kill")] + Clicks(DirectChain[..k]);
      NoCentreInClicks(DirectChain[..k]);
    } else {
      ClickTargetMissing(script, io, "kill");
      if Obs(script, io, 1) {
        k := ChainArm(script, Skip(io, 1), "wusheng", AbilityChain, AbilityCombo);
        acts := [Click("wusheng")] + Clicks(AbilityChain[..k]);
        NoCentreInClicks(AbilityChain[..k]);
        assert Skip(Skip(io, 1), 1) == Skip(io, 2);
      } else {
        ClickTargetMissing(script, Skip(io, 1), "wusheng");
        acts, k := [], 0;
      }
    }
  }

  /** A turn commits to the arm `ArmAt` names: with both flags set it tries the direct kill before the ability. */
  lemma TurnArm(script: Script, s: Session)
    ensures CombatTurn(script, s).value.branch == ArmAt(script, s.io.cursor)
  {
    var io := Skip(s.io, 2);
    if Obs(script, s.io, 0) && !Obs(script, s.io, 1) {
      var _ := LethalArm(script, io);
    } else {
      var _, _ := OtherArmsFacts(script, io);
    }
  }

  /** A turn breaks out of the combat loop exactly when `BreaksAt` says. */
  lemma TurnExit(script: Script, s: Session)
    ensures CombatTurn(script, s).value.goOn == !BreaksAt(script, s.io.cursor)
  {
    var io := Skip(s.io, 2);
    if Obs(script, s.io, 0) && !Obs(script, s.io, 1) {
      var _ := LethalArm(script, io);
    } else {
      var _, _ := OtherArmsFacts(script, io);
    }
  }

  /** A turn that goes on ends with exactly one centre click; one that breaks makes none. */
  lemma TurnCentre(script: Script, s: Session) returns (acts: seq<Action>)
    ensures var r := CombatTurn(script, s);
      && ClickCenter !in acts
      && r.next.io.trace == s.io.trace + acts + (if r.value.goOn then [ClickCenter] else [])
  {
    var io := Skip(s.io, 2);
    if Obs(script, s.io, 0) && !Obs(script, s.io, 1) {
      acts := LethalArm(script, io);
    } else {
      var k;
      acts, k := OtherArmsFacts(script, io);
    }
  }

  /** Every landmark a combat turn may click. */
  const CombatLandmarks: set<string> := {"kill", "caocao", "confirm", "choose_wusheng", "li_jue", "wusheng", "small_kill"}

  /** Only centre clicks and clicks on combat landmarks. */
  predicate CombatActions(acts: seq<Action>) {
    forall a :: a in acts ==> a == ClickCenter || (a.Click? && a.target in CombatLandmarks)
  }

  lemma ClicksWithin(names: seq<string>)
    requires forall i :: 0 <= i < |names| ==> names[i] in CombatLandmarks
    ensures CombatActions(Clicks(names))
  {
    forall a | a in Clicks(names) ensures a.Click? && a.target in CombatLandmarks {
      var i :| 0 <= i < |names| && Clicks(names)[i] == a;
    }
  }

  lemma LethalActions(script: Script, io: Io) returns (acts: seq<Action>)
    ensures LethalCombo(script, io).next.trace == io.trace + acts
    ensures CombatActions(acts)
  {
    var own := LethalArm(script, io);
    var reach := LethalReach(script, io.cursor);
    if reach < 4 {
      ClicksWithin(LethalChain[..reach]);
    } else {
      ClicksWithin(LethalChain);
    }
    acts := own + (if reach != 1 then [ClickCenter] else []);
  }

  lemma OtherArmsActions(script: Script, io: Io) returns (acts: seq<Action>)
    ensures OtherArms(script, io).next.trace == io.trace + acts
    ensures CombatActions(acts)
  {
    var own, k := OtherArmsFacts(script, io);
    if k <= |DirectChain| {
      ClicksWithin(DirectChain[..k]);
    }
    if k <= |AbilityChain| {
      ClicksWithin(AbilityChain[..k]);
    }
    acts := own + (if OtherArms(script, io).value.goOn then [ClickCenter] else []);
  }

  /** A combat turn clicks nothing but combat landmarks and the centre. */
  lemma TurnActions(script: Script, s: Session) returns (acts: seq<Action>)
    ensures CombatTurn(script, s).next.io.trace == s.io.trace + acts
    ensures CombatActions(acts)
  {
    if Obs(script, s.io, 0) && !Obs(script, s.io, 1) {
      acts := LethalActions(script, Skip(s.io, 2));
    } else {
      acts := OtherArmsActions(script, Skip(s.io, 2));
    }
  }

  /** The loop body runs only while "li_jue" is seen and "die" is not. */
  lemma CombatGuard(script: Script, s: Session)
    requires !(Obs(script, s.io, 0) && !Obs(script, s.io, 1))
    ensures Combat(script, s) == s.(io := Skip(s.io, if Obs(script, s.io, 0) then 2 else 1))
  {
  }

  /** The combat loop only appends to the trace, and only centre clicks and clicks on combat landmarks. */
  lemma {:induction false} CombatOnlyFights(script: Script, s: Session) returns (acts: seq<Action>)
    ensures Combat(script, s).io.trace == s.io.trace + acts
    ensures CombatActions(acts)
    decreases Remaining(script, s.io)
  {
    if !(Obs(script, s.io, 0) && !Obs(script, s.io, 1)) {
      CombatGuard(script, s);
      acts := [];
    } else {
      var t := s.(io := Skip(s.io, 2));
      var turn := CombatTurn(script, t);
      var own := TurnActions(script, t);
      CombatTurns(script, s);
      if turn.value.goOn {
        var rest := CombatOnlyFights(script, turn.next);
        acts := own + rest;
        AppendAssoc(t.io.trace, own, rest);
      } else {
        acts := own;
      }
    }
  }

  /** Past the guard, the loop runs one turn and goes on from its end unless it broke. */
  lemma CombatTurns(script: Script, s: Session)
    requires Obs(script, s.io, 0) && !Obs(script, s.io, 1)
    ensures var turn := CombatTurn(script, s.(io := Skip(s.io, 2)));
      Combat(script, s) == if turn.value.goOn then Combat(script, turn.next) else turn.next
  {
  }

  /** Appending action lists is associative. */
  lemma AppendAssoc(a: seq<Action>, b: seq<Action>, c: seq<Action>)
    ensures a + (b + c) == a + b + c
  {
  }

  /** The clicks of the whole first-arm chain, written out. */
  lemma LethalChainSpelledOut()
    ensures Clicks(LethalChain[..3]) == [Click("kill"), Click("caocao"), Click("confirm")]
  {
  }

  /** The first arm finding kill, caocao and confirm but no zhengnan prompt. */
  lemma LethalWithoutZhengnan(script: Script, io: Io)
    requires Obs(script, io, 0) && Obs(script, io, 1) && Obs(script, io, 2) && !Obs(script, io, 3)
    ensures LethalCombo(script, io)
         == Step(Turn(Lethal, true), Io(io.cursor + 4, io.trace + [Click("kill"), Click("caocao"), Click("confirm"), ClickCenter]))
  {
    var acts := LethalArm(script, io);
    LethalChainSpelledOut();
    assert io.trace + acts + [ClickCenter] == io.trace + [Click("kill"), Click("caocao"), Click("confirm"), ClickCenter];
  }

  /**
   * "li_jue" seen, "die" not, a kill in hand and no wusheng: the turn clicks
   * kill, caocao and confirm in that order, polls zhengnan and, finding none,
   * makes the centre click and goes back to the loop guard.
   */
  lemma LethalTurnScenario(script: Script, s: Session)
    requires var at := s.io.cursor;
      && Answer(script, at) && !Answer(script, at + 1) && Answer(script, at + 2) && !Answer(script, at + 3)
      && Answer(script, at + 4) && Answer(script, at + 5) && Answer(script, at + 6) && !Answer(script, at + 7)
    ensures Combat(script, s)
         == Combat(script, Session(Io(s.io.cursor + 8, s.io.trace + [Click("kill"), Click("caocao"), Click("confirm"), ClickCenter]), true, false))
  {
    LethalWithoutZhengnan(script, Skip(s.io, 4));
    CombatTurns(script, s);
  }
}
