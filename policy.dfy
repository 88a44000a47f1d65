/**
 * The battle state machine as functions of the perception script. Every
 * perception query takes a fresh capture, so perception is a script of
 * found / not-found answers, one consumed per query in program order; once the
 * script is exhausted every further query answers "not found". The pointer is
 * an output trace of actions.
 */
module Policy {

  datatype Action = Click(target: string) | ClickCenter

  /** How an encounter ends: `Complete` and `Abort` are the source's True and False. */
  datatype Outcome = Complete | Abort | Stalled

  /** The arm of the combat branch chain that a turn committed to. */
  datatype Branch = Lethal | DirectKill | AbilityCombo | NoMove

  /** What a turn did and whether the loop goes on to re-evaluate its guard (false: `break`). */
  datatype Turn = Turn(branch: Branch, goOn: bool)

  /** The found / not-found answers to the perception queries, in the order they are made. */
  type Script = seq<bool>

  /** The number of queries answered so far and the actions issued so far. */
  datatype Io = Io(cursor: nat, trace: seq<Action>)

  /** The bot between steps: its perception and pointer state, and the two combat flags. */
  datatype Session = Session(io: Io, hasKill: bool, wushengAvailable: bool)

  /** The value a step computes and the state after it. */
  datatype Step<T, S> = Step(value: T, next: S)

  const MaxCardChange: nat := 3

  /** The answer to query number `at`; "not found" beyond the end of the script. */
  function Answer(script: Script, at: nat): bool {
    at < |script| && script[at]
  }

  /** The answer to the `i`-th query from now on. */
  function Obs(script: Script, io: Io, i: nat): bool {
    Answer(script, io.cursor + i)
  }

  /** The number of answers not yet consumed. */
  function Remaining(script: Script, io: Io): nat {
    if io.cursor <= |script| then |script| - io.cursor else 0
  }

  /** The state after `n` more queries. */
  function Skip(io: Io, n: nat): Io {
    io.(cursor := io.cursor + n)
  }

  /** One perception query (`_find_image` or `_check_card_exist`) on a fresh capture. */
  function Find(script: Script, io: Io): Step<bool, Io> {
    Step(Obs(script, io, 0), Skip(io, 1))
  }

  /** `_click_target`: look for the landmark and click its centre when it is found. */
  function ClickTarget(script: Script, io: Io, name: string): (r: Step<bool, Io>)
    ensures r.next.cursor == io.cursor + 1
  {
    var seen := Find(script, io);
    if seen.value then Step(true, seen.next.(trace := seen.next.trace + [Click(name)])) else seen
  }

  /** The click actions for a list of landmarks, in order. */
  function Clicks(names: seq<string>): seq<Action> {
    seq(|names|, i requires 0 <= i < |names| => Click(names[i]))
  }

  /** Nested `if self._click_target(...)` tests: click the landmarks in order, stopping at the first missing one. */
  function Chain(script: Script, io: Io, names: seq<string>): (r: Step<nat, Io>)
    ensures r.value <= |names| && io.cursor <= r.next.cursor
    decreases |names|
  {
    if names == [] then Step(0, io)
    else
      var first := ClickTarget(script, io, names[0]);
      if !first.value then Step(0, first.next)
      else
        var rest := Chain(script, first.next, names[1..]);
        Step(rest.value + 1, rest.next)
  }

  /** `_handle_start_challenge`. */
  function StartChallenge(script: Script, io: Io): (r: Step<bool, Io>)
    ensures r.value == Obs(script, io, 0) && r.next.cursor == io.cursor + 1
    ensures r.next.trace == io.trace + if r.value then [Click("start_challenge")] else []
  {
    ClickTarget(script, io, "start_challenge")
  }

  /** `_choose_wusheng`. */
  function ChooseWusheng(script: Script, io: Io): (r: Step<bool, Io>)
    ensures r.value == Obs(script, io, 0) && r.next.cursor == io.cursor + 1
    ensures r.next.trace == io.trace + if r.value then [Click("choose_wusheng")] else []
  {
    ClickTarget(script, io, "choose_wusheng")
  }

  /** How one card-change attempt ends: the loop returns `ok`, or tries again. */
  datatype Attempt = Finished(ok: bool) | Retry

  /** The second half of an attempt: click "card_change", then "confirm"; the loop goes on only when both were found. */
  function ChangeCards(script: Script, io: Io): (r: Step<Attempt, Io>)
    ensures io.cursor < r.next.cursor
  {
    var change := ClickTarget(script, io, "card_change");
    if !change.value then Step(Finished(false), change.next)
    else
      var confirm := ClickTarget(script, change.next, "confirm");
      Step(if confirm.value then Retry else Finished(false), confirm.next)
  }

  /** One pass of the card-change loop body: a kill already in hand is kept by clicking "cancel". */
  function CardChangeAttempt(script: Script, io: Io): (r: Step<Attempt, Io>)
    ensures io.cursor < r.next.cursor
  {
    var kill := Find(script, io);
    if !kill.value then ChangeCards(script, kill.next)
    else
      var cancel := ClickTarget(script, kill.next, "cancel");
      if cancel.value then Step(Finished(true), cancel.next) else ChangeCards(script, cancel.next)
  }

  /** The card-change loop from attempt number `attempt` on, ending with a fresh kill check. */
  function CardChangeFrom(script: Script, io: Io, attempt: nat): (r: Step<bool, Io>)
    requires attempt <= MaxCardChange
    ensures io.cursor < r.next.cursor
    decreases MaxCardChange - attempt
  {
    if attempt == MaxCardChange then Find(script, io)
    else
      var pass := CardChangeAttempt(script, io);
      match pass.value
      case Finished(ok) => Step(ok, pass.next)
      case Retry => CardChangeFrom(script, pass.next, attempt + 1)
  }

  /** `_handle_card_change`. */
  function CardChange(script: Script, io: Io): (r: Step<bool, Io>)
    ensures io.cursor < r.next.cursor
  {
    CardChangeFrom(script, io, 0)
  }

  /** The end of a turn that goes on: one click in the centre of the screen. */
  function Pass(io: Io, branch: Branch): Step<Turn, Io> {
    Step(Turn(branch, true), io.(trace := io.trace + [ClickCenter]))
  }

  /** The first arm (has a kill, no wusheng): kill, caocao, confirm, then the zhengnan follow-up. */
  function LethalCombo(script: Script, io: Io): (r: Step<Turn, Io>)
    ensures io.cursor < r.next.cursor && r.value.branch == Lethal
  {
    var kill := ClickTarget(script, io, "kill");
    if !kill.value then Pass(kill.next, Lethal)
    else
      var target := ClickTarget(script, kill.next, "caocao");
      if !target.value then Step(Turn(Lethal, false), target.next)
      else
        var confirm := ClickTarget(script, target.next, "confirm");
        if !confirm.value then Pass(confirm.next, Lethal)
        else
          var zhengnan := Find(script, confirm.next);
          if !zhengnan.value then Pass(zhengnan.next, Lethal)
          else Pass(ChooseWusheng(script, ClickTarget(script, zhengnan.next, "confirm").next).next, Lethal)
  }

  /** The other arms, tried in order once the first arm's test failed. */
  function OtherArms(script: Script, io: Io): (r: Step<Turn, Io>)
    ensures io.cursor < r.next.cursor && r.value.branch != Lethal
  {
    var direct := ClickTarget(script, io, "kill");
    if direct.value then Pass(Chain(script, direct.next, ["li_jue", "confirm"]).next, DirectKill)
    else
      var ability := ClickTarget(script, direct.next, "wusheng");
      if ability.value then Pass(Chain(script, ability.next, ["small_kill", "li_jue", "confirm"]).next, AbilityCombo)
      else Step(Turn(NoMove, false), ability.next)
  }

  /** The body of the combat loop: refresh both flags, then the branch chain. */
  function CombatTurn(script: Script, s: Session): (r: Step<Turn, Session>)
    ensures s.io.cursor < r.next.io.cursor
    ensures r.next.hasKill == Obs(script, s.io, 0) && r.next.wushengAvailable == Obs(script, s.io, 1)
  {
    var kill := Find(script, s.io);
    var wusheng := Find(script, kill.next);
    var turn := if kill.value && !wusheng.value then LethalCombo(script, wusheng.next) else OtherArms(script, wusheng.next);
    Step(turn.value, Session(turn.next, kill.value, wusheng.value))
  }

  /** The combat loop: turns while the boss is seen and is not dying. */
  function Combat(script: Script, s: Session): (r: Session)
    ensures s.io.cursor < r.io.cursor
    decreases Remaining(script, s.io)
  {
    var boss := Find(script, s.io);
    if !boss.value then s.(io := boss.next)
    else
      var dying := Find(script, boss.next);
      if dying.value then s.(io := dying.next)
      else
        var turn := CombatTurn(script, s.(io := dying.next));
        if turn.value.goOn then Combat(script, turn.next) else turn.next
  }

  /** After the end screen was detected: click the centre, then "return". */
  function Dismiss(script: Script, io: Io): (r: Step<Outcome, Io>)
    ensures r.value != Stalled && r.next.cursor == io.cursor + 1
    ensures r.value == Complete <==> Obs(script, io, 0)
    ensures r.next.trace == io.trace + [ClickCenter] + if r.value == Complete then [Click("return")] else []
  {
    var back := ClickTarget(script, io.(trace := io.trace + [ClickCenter]), "return");
    Step(if back.value then Complete else Abort, back.next)
  }

  /** `_handle_victory`: poll for "vectory" or "fail"; `Stalled` once the script has run out. */
  function Victory(script: Script, io: Io): (r: Step<Outcome, Io>)
    ensures io.cursor <= r.next.cursor
    decreases Remaining(script, io)
  {
    if Remaining(script, io) == 0 then Step(Stalled, io)
    else
      var win := Find(script, io);
      var seen := if win.value then win else Find(script, win.next);
      if seen.value then Dismiss(script, seen.next) else Victory(script, seen.next)
  }

  /** Before combat: the card change, "trustee" when it failed, and dismissing the xiefang prompt. */
  function Prepare(script: Script, io: Io): (r: Io)
    ensures io.cursor < r.cursor
  {
    var cards := CardChange(script, io);
    var prepared := if cards.value then cards.next else ClickTarget(script, cards.next, "trustee").next;
    var xiefang := Find(script, prepared);
    if xiefang.value then ClickTarget(script, xiefang.next, "cancel").next else xiefang.next
  }

  /** After combat: the two diagnostic queries, the "trustee" click, then the victory poll. */
  function Conclude(script: Script, io: Io): (r: Step<Outcome, Io>)
    ensures io.cursor < r.next.cursor
  {
    var diagnosed := Find(script, Find(script, io).next).next;
    var trustee := ClickTarget(script, diagnosed, "trustee");
    if !trustee.value then Step(Abort, trustee.next) else Victory(script, trustee.next)
  }

  /** `run_battle_strategy`. */
  function Battle(script: Script, s: Session): (r: Step<Outcome, Session>)
    ensures s.io.cursor < r.next.io.cursor
  {
    var start := StartChallenge(script, s.io);
    if !start.value then Step(Abort, s.(io := start.next))
    else
      var fought := Combat(script, s.(io := Prepare(script, start.next)));
      var ended := Conclude(script, fought.io);
      Step(ended.value, fought.(io := ended.next))
  }
}
