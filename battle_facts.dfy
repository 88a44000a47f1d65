/** How the victory poll and a whole encounter end, read off the answer script. */
module BattleFacts {
  import opened Policy
  import opened PolicyFacts
  import opened CombatFacts

  /** The first position from `at` on holding a "found" answer; a position past the script when there is none. */
  function NextSeen(script: Script, at: nat): (p: nat)
    ensures at <= p
    ensures p < |script| ==> script[p]
    ensures forall q :: at <= q < p && q < |script| ==> !script[q]
    decreases |script| - at
  {
    if at >= |script| || script[at] then at else NextSeen(script, at + 1)
  }

  /** After the end screen is seen: one centre click, then "return" when it is found. */
  lemma DismissClicks(script: Script, io: Io)
    ensures Dismiss(script, io)
         == if Obs(script, io, 0) then Step(Complete, Io(io.cursor + 1, io.trace + [ClickCenter, Click("return")]))
            else Step(Abort, Io(io.cursor + 1, io.trace + [ClickCenter]))
  {
    assert io.trace + [ClickCenter] + [Click("return")] == io.trace + [ClickCenter, Click("return")];
  }

  /** Two answers that are both "not found" do not move the next end-screen sighting. */
  lemma SkipUnseen(script: Script, at: nat)
    requires !Answer(script, at) && !Answer(script, at + 1)
    ensures NextSeen(script, at) < |script| <==> NextSeen(script, at + 2) < |script|
    ensures NextSeen(script, at + 2) < |script| ==> NextSeen(script, at) == NextSeen(script, at + 2)
  {
    if at < |script| {
      assert NextSeen(script, at) == NextSeen(script, at + 1);
      if at + 1 < |script| {
        assert NextSeen(script, at + 1) == NextSeen(script, at + 2);
      }
    }
  }

  /**
   * What the victory poll does from `io`: it stalls exactly when no answer left
   * in the script is "found", and then clicks nothing. Otherwise the first
   * "found" answer is the end screen ("vectory" or "fail"): one centre click
   * follows, and the poll returns True exactly when "return" is then found and
   * clicked.
   */
  predicate PollsToEnd(script: Script, io: Io) {
    var r := Victory(script, io);
    var p := NextSeen(script, io.cursor);
    && (r.value == Stalled <==> p >= |script|)
    && (r.value == Stalled ==> r.next.trace == io.trace)
    && (p < |script| ==>
          && r.next.cursor == p + 2
          && r.value == (if Answer(script, p + 1) then Complete else Abort)
          && r.next.trace == io.trace + (if Answer(script, p + 1) then [ClickCenter, Click("return")] else [ClickCenter]))
  }

  lemma {:induction false} VictoryOutcome(script: Script, io: Io)
    ensures PollsToEnd(script, io)
    decreases Remaining(script, io)
  {
    if Remaining(script, io) == 0 {
    } else if Obs(script, io, 0) {
      DismissClicks(script, Skip(io, 1));
    } else if Obs(script, io, 1) {
      SeenSecond(script, io);
    } else {
      VictoryOutcome(script, Skip(io, 2));
      PollAgain(script, io);
    }
  }

  /** The end screen shows up at the second query of a poll round. */
  lemma SeenSecond(script: Script, io: Io)
    requires Remaining(script, io) > 0 && !Obs(script, io, 0) && Obs(script, io, 1)
    ensures PollsToEnd(script, io)
  {
    DismissClicks(script, Skip(io, 2));
    assert NextSeen(script, io.cursor) == NextSeen(script, io.cursor + 1);
  }

  /** A poll round that sees nothing goes on polling from two answers further. */
  lemma PollAgain(script: Script, io: Io)
    requires Remaining(script, io) > 0 && !Obs(script, io, 0) && !Obs(script, io, 1)
    requires PollsToEnd(script, Skip(io, 2))
    ensures PollsToEnd(script, io)
  {
    SkipUnseen(script, io.cursor);
  }

  /** `run_battle_strategy` returns False and clicks nothing when "start_challenge" is not found. */
  lemma NoStartNoClicks(script: Script, s: Session)
    requires !Obs(script, s.io, 0)
    ensures Battle(script, s) == Step(Abort, s.(io := Skip(s.io, 1)))
  {
  }

  /**
   * Preparation after the card change: a failed card change is followed by a
   * "trustee" click when that is found (and nothing aborts), then a "cancel"
   * click when the xiefang prompt is seen and "cancel" is found.
   */
  lemma PrepareClicks(script: Script, io: Io) returns (acts: seq<Action>)
    ensures var cards := CardChange(script, io);
      var q := if cards.value then 0 else 1;
      && Prepare(script, io).trace == cards.next.trace + acts
      && acts == (if !cards.value && Obs(script, cards.next, 0) then [Click("trustee")] else [])
               + (if Obs(script, cards.next, q) && Obs(script, cards.next, q + 1) then [Click("cancel")] else [])
  {
    var cards := CardChange(script, io);
    var q := if cards.value then 0 else 1;
    var trustee := if !cards.value && Obs(script, cards.next, 0) then [Click("trustee")] else [];
    var cancel := if Obs(script, cards.next, q) && Obs(script, cards.next, q + 1) then [Click("cancel")] else [];
    acts := trustee + cancel;
    AppendAssoc(cards.next.trace, trustee, cancel);
  }

  /** After combat, a missing final "trustee" gives False; a found one is clicked and the victory poll decides. */
  lemma ConcludeOutcome(script: Script, io: Io)
    ensures !Obs(script, io, 2) ==> Conclude(script, io) == Step(Abort, Skip(io, 3))
    ensures Obs(script, io, 2) ==> Conclude(script, io) == Victory(script, Io(io.cursor + 3, io.trace + [Click("trustee")]))
  {
  }

  /** What the end of an encounter appends: "trustee" before any poll, and the centre and "return" clicks of a win. */
  lemma ConcludeClicks(script: Script, io: Io) returns (tail: seq<Action>)
    ensures var r := Conclude(script, io);
      && r.next.trace == io.trace + tail
      && (r.value == Complete ==> |tail| >= 2 && tail[|tail| - 2..] == [ClickCenter, Click("return")])
      && (r.value == Stalled ==> |tail| >= 1 && tail[|tail| - 1] == Click("trustee"))
  {
    ConcludeOutcome(script, io);
    if !Obs(script, io, 2) {
      tail := [];
    } else {
      var t := Io(io.cursor + 3, io.trace + [Click("trustee")]);
      VictoryOutcome(script, t);
      var p := NextSeen(script, t.cursor);
      if p >= |script| {
        tail := [Click("trustee")];
      } else {
        var ending := if Answer(script, p + 1) then [ClickCenter, Click("return")] else [ClickCenter];
        tail := [Click("trustee")] + ending;
        AppendAssoc(io.trace, [Click("trustee")], ending);
      }
    }
  }

  /** Everything up to the end of combat: "start_challenge" first, then only appended actions. */
  lemma ThroughCombat(script: Script, s: Session) returns (acts: seq<Action>)
    requires Obs(script, s.io, 0)
    ensures var io := Io(s.io.cursor + 1, s.io.trace + [Click("start_challenge")]);
      Combat(script, s.(io := Prepare(script, io))).io.trace == s.io.trace + [Click("start_challenge")] + acts
  {
    var io := Io(s.io.cursor + 1, s.io.trace + [Click("start_challenge")]);
    var cards := CardChangeOutcome(script, io);
    var prep := PrepareClicks(script, io);
    var fight := CombatOnlyFights(script, s.(io := Prepare(script, io)));
    acts := cards + prep + fight;
    AppendAssoc(io.trace, cards, prep);
    AppendAssoc(io.trace, cards + prep, fight);
  }

  /**
   * `run_battle_strategy` once started: its first action is "start_challenge";
   * it returns True only after a centre click and a "return" click; it stalls
   * only in the victory poll, right after the final "trustee" click.
   */
  lemma BattleOutcome(script: Script, s: Session) returns (acts: seq<Action>)
    requires Obs(script, s.io, 0)
    ensures var r := Battle(script, s);
      && r.next.io.trace == s.io.trace + [Click("start_challenge")] + acts
      && (r.value == Complete ==> |acts| >= 2 && acts[|acts| - 2..] == [ClickCenter, Click("return")])
      && (r.value == Stalled ==> |acts| >= 1 && acts[|acts| - 1] == Click("trustee"))
  {
    ClickTargetFound(script, s.io, "start_challenge");
    var early := ThroughCombat(script, s);
    var io := Io(s.io.cursor + 1, s.io.trace + [Click("start_challenge")]);
    var fought := Combat(script, s.(io := Prepare(script, io)));
    var tail := ConcludeClicks(script, fought.io);
    acts := early + tail;
    AppendAssoc(s.io.trace + [Click("start_challenge")], early, tail);
  }
}
