# ColorAutoFight, modelled in Dafny

This project models the decision core of `ColorAutoFight`, a screen-automation bot that plays one
kind of card-game encounter. It finds landmarks on the screen by colour template matching and
clicks on them. The model has two parts.

- **Matching arithmetic** (modules `Catalog` and `Perception`):
  - loading the template images;
  - the guard chain of a lookup;
  - the centre of the best match, tested inclusively against the threshold;
  - the list of centres of every score cell at or above the threshold, in row-major `np.where` order;
  - the "card exists" test.

  The decoded images, the capture, the score grid and the best-match peak are inputs.
- **The battle state machine** (modules `Policy`, `PolicyFacts`, `CombatFacts`, `BattleFacts` and `Fight`):
  - the start button;
  - the bounded card-change loop;
  - dismissing the xiefang prompt;
  - the combat loop with its branch chain and the fields `has_kill` / `wusheng_available`;
  - the final "trustee" click;
  - the victory poll.

  Each perception query takes a fresh screenshot. So the screen is a *script*: a sequence of
  found / not-found answers, one consumed per query in program order. When the script runs out,
  every query answers "not found". The pointer is a *trace* of actions, `Click(name)` and `ClickCenter`.

`Policy` states the state machine as functions of the script and of the state they start from.
The three `…Facts` modules prove what the source promises about those functions. `Fight.AutoFight`
is the bot object itself. Its fields are:

- the configured template table and the templates that loaded from it;
- the script;
- the query cursor and the trace;
- the two combat flags.

Its methods carry the source's loops and early returns. Each one that models a source method is
proved to leave the object exactly in the state the matching `Policy` function gives, and to return
the value it gives. There are two exceptions. `LethalCombo` and `OtherArms` stop before the closing
centre click, which `CombatTurn` then adds with `ClickCentre`: their final state plus that click is
the `Policy` function's state. The constructor and `ClickCentre` have no `Policy` counterpart.

Four places where the code behaves differently from a plain reading of its intent. The model
follows the code in each:

- **Final kill check.** After three full card-change attempts, `_handle_card_change` returns a
  fresh check for a kill, and that check can succeed. The loop does not simply report failure
  (`PolicyFacts.FinalRecheckCanSucceed`).
- **Both flags set.** When `has_kill` and `wusheng_available` are both true, the first (lethal)
  arm is skipped. The turn then tries kill→li_jue before the wusheng arm (`CombatFacts.TurnArm`,
  `CombatFacts.ArmAt`).
- **Flags not reset.** The two flags are set only in `__init__` and in each combat turn. They are
  not reset between encounters. No decision reads them before a turn has set them.
- **Failed card change.** A failed card change clicks "trustee" but does not abort; combat goes
  on (`BattleFacts.PrepareClicks`).

## Model

| member | source | states |
|---|---|---|
| Catalog.Product | test2.py:54 | the number of elements of an array is positive exactly when every extent is positive |
| Catalog.LoadTemplates | test2.py:47-60 | the loaded names are a subset of the configured ones; a name is kept exactly when its read gave a non-empty image, and it maps to that image; failed reads are dropped, never raised |
| Perception.Centre | test2.py:98 | the reported point lies inside the matched w-by-h box, at least `loc` and less than `loc + (w, h)` in each direction where the extent is positive |
| Perception.FindImage | test2.py:76-99 | a point is returned exactly when the template is loaded and non-empty, the capture is present and non-empty, both are 3-dimensional, and the best score reaches the threshold (inclusive); the point is the centre of the best location |
| Perception.AllCentres | test2.py:101-120 | an invalid lookup yields the empty list; a valid one yields as many centres as there are cells at or above the threshold |
| Perception.Where | test2.py:115-117 | the scan order of `np.where(result >= threshold)`: row by row from the top, left to right within a row; which cells it lists is stated by `Perception.WhereExact` |
| Perception.RowHitsExact | test2.py:114-117 | the hits of one row are exactly its cells from `x` on that reach the threshold, left to right |
| Perception.WhereExact | test2.py:114-117 | the hits from row `y` down are exactly the grid cells there that reach the threshold, in row-major order |
| Perception.AllCentresExact | test2.py:114-120 | the reported centres are exactly the centres of the cells that reach the threshold, in row-major order |
| Perception.FindAllImages | test2.py:101-120 | the loop appends, after the guard chain, one centre per hit in scan order: the result is `AllCentres` |
| Perception.CheckCardExist | test2.py:133-136 | true exactly when the lookup is valid and some cell reaches the default threshold 0.7 |
| Perception.PeakAgreesWithAll | test2.py:93-99 | on the same capture, the single-best lookup finds something exactly when the find-all lookup does, and its point is one of the find-all points |
| Policy.ClickTarget | test2.py:122-131 | contract: exactly one answer is consumed (the cursor advance that termination uses); what is clicked and returned is stated by `PolicyFacts.ClickTargetFound` and `PolicyFacts.ClickTargetMissing` |
| Policy.StartChallenge | test2.py:138-144 | returns the next answer, consumes it, and clicks "start_challenge" exactly when it is found |
| Policy.ChooseWusheng | test2.py:169-175 | returns the next answer, consumes it, and clicks "choose_wusheng" exactly when it is found |
| Policy.Chain | test2.py:216-229 | contract: the number of landmarks clicked is at most the chain's length, and the cursor never moves back; the stop at the first missing landmark is stated by `PolicyFacts.ChainStopsAtFirstMissing` |
| Policy.ChangeCards | test2.py:156-164 | contract: only the cursor advance used for termination; the behaviour is stated by the `PolicyFacts.Attempt…` lemmas |
| Policy.CardChangeAttempt | test2.py:147-164 | contract: only the cursor advance used for termination; the behaviour is stated by the `PolicyFacts.Attempt…` lemmas |
| Policy.CardChangeFrom | test2.py:147-167 | contract: only the cursor advance used for termination; the behaviour is stated by `PolicyFacts.LoopTrace` and `PolicyFacts.LoopVerdict` |
| Policy.CardChange | test2.py:146-167 | contract: only the cursor advance used for termination; the behaviour is stated by `PolicyFacts.CardChangeOutcome` and the lemmas beside it |
| Policy.LethalCombo | test2.py:195-213 | contract: the cursor advances and the turn is reported as the lethal arm; the clicks and the break are stated by `CombatFacts.LethalArm` |
| Policy.OtherArms | test2.py:214-234 | contract: the cursor advances and the turn is never reported as the lethal arm; the clicks and the break are stated by `CombatFacts.OtherArmsFacts` |
| Policy.CombatTurn | test2.py:192-240 | the cursor advances, and `has_kill` / `wusheng_available` become the turn's first two answers; arm, exit and clicks are stated by `CombatFacts.TurnArm`, `TurnExit` and `TurnCentre` |
| Policy.Combat | test2.py:191-240 | contract: only the cursor advance; the guard and the clicks are stated by `CombatFacts.CombatGuard` and `CombatFacts.CombatOnlyFights` |
| Policy.Dismiss | test2.py:260-270 | never `Stalled`; one answer consumed; one centre click, then True exactly when "return" is found, and then clicked |
| Policy.Victory | test2.py:254-270 | contract: the cursor never moves back; the outcome is stated by `BattleFacts.VictoryOutcome` |
| Policy.Prepare | test2.py:181-189 | contract: only the cursor advance; the clicks are stated by `BattleFacts.PrepareClicks` |
| Policy.Conclude | test2.py:242-252 | contract: only the cursor advance; the outcome is stated by `BattleFacts.ConcludeOutcome` and `BattleFacts.ConcludeClicks` |
| Policy.Battle | test2.py:177-252 | contract: only the cursor advance; the outcome is stated by `BattleFacts.NoStartNoClicks` and `BattleFacts.BattleOutcome` |
| PolicyFacts.ClickTargetFound | test2.py:122-129 | a click test whose landmark is found consumes one answer, clicks the landmark and returns True |
| PolicyFacts.ClickTargetMissing | test2.py:122-131 | a click test whose landmark is missing consumes one answer, clicks nothing and returns False |
| PolicyFacts.ChainStopsAtFirstMissing | test2.py:216-229 | nested click tests click a prefix of their landmarks: each clicked one was found, the first unclicked one was not, and one answer is consumed per landmark tried |
| PolicyFacts.AttemptCancels | test2.py:149-154 | an attempt that sees a kill and finds "cancel" clicks "cancel" and finishes with True |
| PolicyFacts.AttemptGoesOn | test2.py:149-158 | an attempt that does not cancel goes on to change cards, also when a kill was seen but "cancel" was missing |
| PolicyFacts.AttemptNoChange | test2.py:158-159 | a missing "card_change" button finishes the attempt with False and no click |
| PolicyFacts.AttemptNoConfirm | test2.py:158-163 | "card_change" clicked but "confirm" missing finishes the attempt with False |
| PolicyFacts.AttemptChanged | test2.py:158-164 | both buttons clicked: the loop goes on to the next attempt after one full round of clicks |
| PolicyFacts.LoopEnd | test2.py:147-167 | the loop makes at most three full attempts, and all the remaining ones exactly when it ends by exhausting them |
| PolicyFacts.LoopTrace | test2.py:146-167 | the loop's clicks are its full rounds followed by the clicks of how it ended |
| PolicyFacts.LoopVerdict | test2.py:146-167 | the loop returns True after a cancel, False after a missing button, and the final kill check once exhausted |
| PolicyFacts.CardChangeOutcome | test2.py:146-167 | "card_change" is clicked at most three times; a "cancel" click is the last action and means True; True without a cancel only after all three full attempts |
| PolicyFacts.KillInHandCancels | test2.py:149-154 | a kill in hand and a cancel button: one "cancel" click, then True |
| PolicyFacts.CancelMissingChangesCards | test2.py:149-159 | a kill seen but no cancel button: the loop goes on to "card_change", and returns False right away when that is missing |
| PolicyFacts.FinalRecheckCanSucceed | test2.py:165-167 | after three full attempts the fresh kill check can return True with no cancel clicked |
| CombatFacts.ChainArm | test2.py:214-229 | an arm that clicks its first landmark clicks the found prefix of its chain and then the centre, and the turn goes on |
| CombatFacts.LethalArm | test2.py:195-213 | the first arm clicks the found prefix of kill, caocao, confirm; after all three and a zhengnan prompt it clicks "confirm" and "choose_wusheng" where found; it breaks only when "caocao" is missing after "kill" was clicked |
| CombatFacts.OtherArmsFacts | test2.py:214-234 | kill→li_jue→confirm if "kill" is found, else wusheng→small_kill→li_jue→confirm if "wusheng" is found, else no move and a break; each chain stops at its first missing landmark |
| CombatFacts.TurnArm | test2.py:192-234 | a turn commits to the first arm whose test applies, with both flags set skipping the lethal arm |
| CombatFacts.TurnExit | test2.py:211-234 | a turn breaks out of the loop exactly when no arm applies or "caocao" is missing after "kill" was clicked |
| CombatFacts.TurnCentre | test2.py:195-240 | a turn that goes on ends with exactly one centre click; one that breaks makes none |
| CombatFacts.TurnActions | test2.py:195-240 | a turn only appends clicks on combat landmarks and centre clicks |
| CombatFacts.CombatGuard | test2.py:191 | the loop body is not entered when "li_jue" is missing or "die" is seen; those one or two queries are all the loop does |
| CombatFacts.CombatOnlyFights | test2.py:191-240 | the whole combat loop only appends clicks on combat landmarks and centre clicks |
| CombatFacts.LethalWithoutZhengnan | test2.py:196-210 | kill, caocao and confirm found and no zhengnan prompt: those three clicks, then the centre |
| CombatFacts.LethalTurnScenario | test2.py:191-240 | with the boss alive, a kill in hand and no wusheng, one turn clicks kill, caocao, confirm and the centre and goes back to the guard with the flags set |
| BattleFacts.NextSeen | test2.py:257 | the first "found" answer from a position on, past the script when there is none |
| BattleFacts.DismissClicks | test2.py:260-270 | once the end screen is seen: one centre click, then True exactly when "return" is found and clicked |
| BattleFacts.VictoryOutcome | test2.py:254-270 | the poll stalls exactly when no answer left is "found", and then clicks nothing; otherwise the first "found" answer is the end screen, one centre click follows, and the result is True exactly when "return" is then clicked |
| BattleFacts.NoStartNoClicks | test2.py:177-179 | no "start_challenge": False, no click, flags untouched |
| BattleFacts.PrepareClicks | test2.py:181-189 | a failed card change is followed by a "trustee" click where found, and nothing aborts; then "cancel" is clicked when the xiefang prompt is seen and "cancel" is found |
| BattleFacts.ConcludeOutcome | test2.py:242-252 | after combat two diagnostic queries are consumed; a missing "trustee" gives False, a found one is clicked and the victory poll decides |
| BattleFacts.ConcludeClicks | test2.py:242-270 | True only after a final centre click and "return" click; a stall only right after the "trustee" click |
| BattleFacts.ThroughCombat | test2.py:177-240 | once started, everything up to the end of combat is "start_challenge" followed by appended actions only |
| BattleFacts.BattleOutcome | test2.py:177-252 | a started encounter's first action is "start_challenge"; it returns True only after a centre click and a "return" click, and stalls only right after the final "trustee" click |
| Fight.AutoFight.constructor | test2.py:15-45 | the configured template table, the templates that loaded from it, both flags false, nothing queried or clicked |
| Fight.AutoFight.Sees | test2.py:76-99 | one query, as `Policy.Find`: the next answer of the script, one answer consumed, nothing clicked |
| Fight.AutoFight.ClickTarget | test2.py:122-131 | as `Policy.ClickTarget`: the landmark is clicked exactly when it is found |
| Fight.AutoFight.HandleStartChallenge | test2.py:138-144 | as `Policy.StartChallenge` |
| Fight.AutoFight.ChooseWusheng | test2.py:169-175 | as `Policy.ChooseWusheng` |
| Fight.AutoFight.HandleCardChange | test2.py:146-167 | the `for` loop with early returns ends in the state, and with the result, of `Policy.CardChange`, which the `PolicyFacts` lemmas describe |
| Fight.AutoFight.ClickCentre | test2.py:236-240 | the centre click is appended to the trace, as `Policy.Pass` appends it at the end of a turn that goes on |
| Fight.AutoFight.LethalCombo | test2.py:195-213 | as `Policy.LethalCombo`, the closing centre click left to the turn |
| Fight.AutoFight.OtherArms | test2.py:214-234 | as `Policy.OtherArms`, the closing centre click left to the turn |
| Fight.AutoFight.CombatTurn | test2.py:192-240 | both flags refreshed from fresh queries, then the arm and the centre click, as `Policy.CombatTurn` |
| Fight.AutoFight.CombatLoop | test2.py:191-240 | the combat `while` loop ends in the state `Policy.Combat` gives, which the `CombatFacts` lemmas describe |
| Fight.AutoFight.HandleVictory | test2.py:254-270 | the polling loop ends with the result and state of `Policy.Victory`, which `BattleFacts.VictoryOutcome` describes |
| Fight.AutoFight.PrepareCombat | test2.py:181-189 | as `Policy.Prepare` |
| Fight.AutoFight.FinishBattle | test2.py:242-252 | as `Policy.Conclude` |
| Fight.AutoFight.RunBattleStrategy | test2.py:177-252 | one encounter ends with the result, flags and trace of `Policy.Battle`, which `BattleFacts.BattleOutcome` describes |

## Left out

- Screen and pointer I/O (`pyautogui.screenshot`, `pyautogui.click`, `pyautogui.size`) are outside the model. The screen is the answer script, and a click is a trace entry. The centre click is one `ClickCenter` action, because the screen size is not modelled.
- OpenCV and NumPy (`cv2.imread`, `cv2.matchTemplate`, `cv2.minMaxLoc`, `np.where`) are foreign calls with floating-point correlation. Only the scan order of `np.where` is modelled, by `Perception.Where`. The decode result, the score grid and the best-match peak are inputs.
- Perception.PeakAgreesWithAll and Perception.CheckCardExist: both threshold tests compare exact reals. In the source, `np.where` compares the float32 score grid with 0.7 rounded to float32 (0.69999998807907…), while `_find_image` compares the double `max_val` with the double 0.7. A best cell scoring exactly float32(0.7) is therefore a hit for `_find_all_images` and `_check_card_exist` but a miss for `_find_image`. The model reports a miss in both lookups, and its agreement lemma does not hold for that one value.
- Perception.CheckCardExist: tests the default threshold as the exact real 0.7, not as its float32 rounding, so it misses a cell scoring exactly float32(0.7), as the line above explains.
- `cv2.matchTemplate` raises an error when the template is larger than the capture. The model has no such error, since the score grid is an input.
- The screenshot's own exception handling is in the model only as an absent capture (`None`).
- Timing and randomness are left out: `time.sleep`, `_random_delay` and `random.uniform` do not affect any decision.
- `logger` calls are left out, including the warning for an invalid template.
- `run_loop` and `__main__` are left out. They form an endless supervisor loop whose only other behaviour is randomized pauses.
- Dictionary iteration order in `_load_templates` is not modelled. The loaded map does not depend on it.
- Perception in the state machine is the answer script. It is not connected to `Perception.FindImage` on successive captures.
- Fight.AutoFight.Sees: the landmark name does not pick the answer, and `loadedTemplates` is never consulted. So the script may answer "found" for a landmark whose template did not load, which the source never does: `_find_image` returns None for such a name before taking a screenshot. Every lemma holds for all scripts, so it also covers the scripts the source can produce.
- Fight.AutoFight.HandleVictory: the source polls forever. The model returns `Stalled` once the script has run out at the start of a poll round, a result the source cannot return.
- BattleFacts.ConcludeOutcome: the two diagnostic queries after combat only log. The model consumes their two answers and issues nothing.
- CombatFacts.LethalTurnScenario: a whole encounter is not played through on a concrete script. The scenario covers one turn, as a pattern of answers from any position.
