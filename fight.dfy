/**
 * The fighter object: its loaded templates, the two combat flags it updates in
 * place, and the perception cursor and pointer trace its methods advance. Each
 * method that models a source method is proved to do exactly what the matching
 * `Policy` function says of the state it starts from; the two combat arms stop
 * short of the closing centre click, which the turn adds.
 */
module Fight {
  import opened Policy
  import Catalog

  class AutoFight {
    /** The configured template paths and the templates that loaded. */
    const templates: map<string, string>
    const loadedTemplates: map<string, Catalog.Image>

    /** The answers the screen gives to the fighter's queries, in order. */
    const script: Script

    var cursor: nat
    var trace: seq<Action>
    var hasKill: bool
    var wushengAvailable: bool

    /** The perception and pointer state. */
    function Progress(): Io
      reads this
    {
      Io(cursor, trace)
    }

    /** The whole state the battle functions speak of. */
    function Snapshot(): Session
      reads this
    {
      Session(Progress(), hasKill, wushengAvailable)
    }

    /** The flags are only refreshed by a combat turn. */
    twostate predicate FlagsKept()
      reads this
    {
      hasKill == old(hasKill) && wushengAvailable == old(wushengAvailable)
    }

    /** `__init__`: the template table, `_load_templates`, and both flags cleared. */
    constructor (imread: string -> Catalog.ReadResult, script: Script)
      ensures templates == Catalog.TemplatePaths && this.script == script
      ensures forall name :: name in loadedTemplates <==>
        name in templates && Catalog.Usable(imread(templates[name]))
      ensures forall name :: name in loadedTemplates ==>
        imread(templates[name]) == Catalog.Read(loadedTemplates[name])
      ensures Snapshot() == Session(Io(0, []), false, false)
    {
      var loaded := Catalog.LoadTemplates(Catalog.TemplatePaths, imread);
      templates := Catalog.TemplatePaths;
      loadedTemplates := loaded;
      this.script := script;
      cursor := 0;
      trace := [];
      hasKill := false;
      wushengAvailable := false;
    }

    /** One perception query for landmark `name` (`_find_image` or `_check_card_exist`). */
    method Sees(name: string) returns (found: bool)
      modifies this
      ensures Step(found, Progress()) == Find(script, old(Progress()))
      ensures FlagsKept()
    {
      found := cursor < |script| && script[cursor];
      cursor := cursor + 1;
    }

    /** `_click_target`. */
    method ClickTarget(name: string) returns (clicked: bool)
      modifies this
      ensures Step(clicked, Progress()) == Policy.ClickTarget(script, old(Progress()), name)
      ensures FlagsKept()
    {
      clicked := Sees(name);
      if clicked {
        trace := trace + [Click(name)];
      }
    }

    /** `_handle_start_challenge`. */
    method HandleStartChallenge() returns (started: bool)
      modifies this
      ensures Step(started, Progress()) == StartChallenge(script, old(Progress()))
      ensures FlagsKept()
    {
      started := ClickTarget("start_challenge");
    }

    /** `_choose_wusheng`. */
    method ChooseWusheng() returns (chosen: bool)
      modifies this
      ensures Step(chosen, Progress()) == Policy.ChooseWusheng(script, old(Progress()))
      ensures FlagsKept()
    {
      chosen := ClickTarget("choose_wusheng");
    }

    /** `_handle_card_change`: up to three attempts, then a last look for a kill. */
    method HandleCardChange() returns (ok: bool)
      modifies this
      ensures Step(ok, Progress()) == CardChange(script, old(Progress()))
      ensures FlagsKept()
    {
      ghost var goal := CardChange(script, Progress());
      for attempt := 0 to MaxCardChange
        invariant CardChangeFrom(script, Progress(), attempt) == goal
        invariant FlagsKept()
      {
        ghost var before := Progress();
        var kill := Sees("kill");
        if kill {
          var cancelled := ClickTarget("cancel");
          if cancelled {
            assert CardChangeAttempt(script, before) == Step(Finished(true), Progress());
            return true;
          }
        }
        var changed := ClickTarget("card_change");
        if !changed {
          assert CardChangeAttempt(script, before) == Step(Finished(false), Progress());
          return false;
        }
        var confirmed := ClickTarget("confirm");
        if !confirmed {
          assert CardChangeAttempt(script, before) == Step(Finished(false), Progress());
          return false;
        }
        assert CardChangeAttempt(script, before) == Step(Retry, Progress());
      }
      ok := Sees("kill");
    }
    /** Click the centre of the screen: the end of every combat turn that does not `break`. */
    method ClickCentre()
      modifies this
      ensures Progress() == old(Progress()).(trace := old(trace) + [ClickCenter])
      ensures FlagsKept()
    {
      trace := trace + [ClickCenter];
    }

    /** The first arm of the combat branch chain, without the closing centre click. */
    method LethalCombo() returns (turn: Turn)
      modifies this
      ensures Policy.LethalCombo(script, old(Progress())) ==
        if turn.goOn then Pass(Progress(), turn.branch) else Step(turn, Progress())
      ensures FlagsKept()
    {
      turn := Turn(Lethal, true);
      var kill := ClickTarget("kill");
      if kill {
        var target := ClickTarget("caocao");
        if target {
          var confirmed := ClickTarget("confirm");
          if confirmed {
            var zhengnan := Sees("zhengnan");
            if zhengnan {
              var again := ClickTarget("confirm");
              var chosen := ChooseWusheng();
            }
          }
        } else {
          turn := Turn(Lethal, false);
        }
      }
    }

    /** The direct-kill and wusheng arms, or `break` when neither applies; no centre click. */
    method OtherArms() returns (turn: Turn)
      modifies this
      ensures Policy.OtherArms(script, old(Progress())) ==
        if turn.goOn then Pass(Progress(), turn.branch) else Step(turn, Progress())
      ensures FlagsKept()
    {
      var direct := ClickTarget("kill");
      if direct {
        ghost var chained := Progress();
        var hit := ClickTarget("li_jue");
        if hit {
          var confirmed := ClickTarget("confirm");
        }
        assert Chain(script, chained, ["li_jue", "confirm"]).next == Progress();
        return Turn(DirectKill, true);
      }
      var ability := ClickTarget("wusheng");
      if ability {
        ghost var chained := Progress();
        var small := ClickTarget("small_kill");
        if small {
          var hit := ClickTarget("li_jue");
          if hit {
            var confirmed := ClickTarget("confirm");
          }
        }
        assert Chain(script, chained, ["small_kill", "li_jue", "confirm"]).next == Progress();
        return Turn(AbilityCombo, true);
      }
      turn := Turn(NoMove, false);
    }

    /** One pass of the combat loop body: refresh both flags, take an arm, click the centre. */
    method CombatTurn() returns (turn: Turn)
      modifies this
      ensures Step(turn, Snapshot()) == Policy.CombatTurn(script, old(Snapshot()))
    {
      ghost var start := Progress();
      hasKill := Sees("kill");
      wushengAvailable := Sees("wusheng");
      ghost var armed := Progress();
      assert armed == Skip(start, 2);
      ghost var arm := if hasKill && !wushengAvailable then Policy.LethalCombo(script, armed)
        else Policy.OtherArms(script, armed);
      if hasKill && !wushengAvailable {
        turn := LethalCombo();
      } else {
        turn := OtherArms();
      }
      if turn.goOn {
        ClickCentre();
      }
      assert arm == Step(turn, Progress());
    }

    /** The combat loop of `run_battle_strategy`: turns while the boss is seen and not dying. */
    method CombatLoop()
      modifies this
      ensures Snapshot() == Combat(script, old(Snapshot()))
    {
      ghost var goal := Combat(script, Snapshot());
      var going := true;
      while going
        invariant going ==> Combat(script, Snapshot()) == goal
        invariant !going ==> Snapshot() == goal
        decreases going, Remaining(script, Progress())
      {
        var boss := Sees("li_jue");
        if !boss {
          going := false;
        } else {
          var dying := Sees("die");
          if dying {
            going := false;
          } else {
            var turn := CombatTurn();
            going := turn.goOn;
          }
        }
      }
    }

    /** `_handle_victory`: poll until "vectory" or "fail" is seen, then dismiss the screen. */
    method HandleVictory() returns (outcome: Outcome)
      modifies this
      ensures Step(outcome, Progress()) == Victory(script, old(Progress()))
      ensures FlagsKept()
    {
      ghost var goal := Victory(script, Progress());
      var seen := false;
      while !seen
        invariant !seen ==> Victory(script, Progress()) == goal
        invariant seen ==> Dismiss(script, Progress()) == goal
        invariant FlagsKept()
        decreases !seen, Remaining(script, Progress())
      {
        if cursor >= |script| {
          return Stalled;
        }
        var win := Sees("vectory");
        if win {
          seen := true;
        } else {
          seen := Sees("fail");
        }
      }
      ClickCentre();
      var back := ClickTarget("return");
      outcome := if back then Complete else Abort;
    }

    /** The part of `run_battle_strategy` between the start button and the combat loop. */
    method PrepareCombat()
      modifies this
      ensures Progress() == Prepare(script, old(Progress()))
      ensures FlagsKept()
    {
      var ok := HandleCardChange();
      if !ok {
        var delegated := ClickTarget("trustee");
      }
      var xiefang := Sees("xiefang");
      if xiefang {
        var cancelled := ClickTarget("cancel");
      }
    }

    /** The part of `run_battle_strategy` after the combat loop. */
    method FinishBattle() returns (outcome: Outcome)
      modifies this
      ensures Step(outcome, Progress()) == Conclude(script, old(Progress()))
      ensures FlagsKept()
    {
      var dying := Sees("die");
      var boss := Sees("li_jue");
      var delegated := ClickTarget("trustee");
      if !delegated {
        return Abort;
      }
      outcome := HandleVictory();
    }

    /** `run_battle_strategy`: one encounter from the start button to the end screen. */
    method RunBattleStrategy() returns (outcome: Outcome)
      modifies this
      ensures Step(outcome, Snapshot()) == Battle(script, old(Snapshot()))
    {
      var started := HandleStartChallenge();
      if !started {
        return Abort;
      }
      PrepareCombat();
      CombatLoop();
      outcome := FinishBattle();
    }
  }
}
