/** Runs of the plugin from a fresh start, each shown from the contracts of the
    transitions alone: the confirmation protocol, the no-double-charge rule,
    the expiry, payouts and refunds, auto-start and a zero-length round. */
module Scenarios {
  import opened Lotto

  /** Cost 1 and confirmation on (the default): the first join only asks for
      confirmation, the second takes one item, a third takes nothing. */
  method ConfirmThenJoin(player: Uuid, now: int) returns (outcomes: seq<JoinOutcome>, paid: int)
    ensures outcomes == [AwaitingConfirmation, Joined, AlreadyJoined]
    ensures paid == 1
  {
    var lotto := new SimpleLotto(Defaults);
    var started := lotto.Start(now);
    var first, c1 := lotto.Join(player, 5);
    var second, c2 := lotto.Join(player, 5);
    var third, c3 := lotto.Join(player, 5);
    outcomes, paid := [first, second, third], c1 + c2 + c3;
  }

  /** With confirmation switched off, two joins in a row charge once and admit once. */
  method JoinTwiceWithoutConfirm(player: Uuid, now: int, held: nat)
    returns (outcomes: seq<JoinOutcome>, paid: int, joined: nat)
    requires held >= 3
    ensures outcomes == [Joined, AlreadyJoined]
    ensures paid == 3 && joined == 1
  {
    var lotto := new SimpleLotto(Config(3, 0, 0, 60, 600, []));
    var required := lotto.ToggleConfirm(player);
    var started := lotto.Start(now);
    var first, c1 := lotto.Join(player, held);
    var second, c2 := lotto.Join(player, held);
    outcomes, paid, joined := [first, second], c1 + c2, |lotto.participants|;
  }

  /** When the confirmation window runs out, the next join starts the
      protocol again and charges nothing. */
  method ExpiryRestartsProtocol(player: Uuid, now: int) returns (outcomes: seq<JoinOutcome>, paid: int)
    ensures outcomes == [AwaitingConfirmation, AwaitingConfirmation]
    ensures paid == 0
  {
    var lotto := new SimpleLotto(Defaults);
    var started := lotto.Start(now);
    var first, c1 := lotto.Join(player, 5);
    lotto.Expire(player);
    var second, c2 := lotto.Join(player, 5);
    outcomes, paid := [first, second], c1 + c2;
  }

  /** The expiry task of a request made in one round still fires in the next
      one and clears the player's new pending flag, so their confirmation
      there is taken as a fresh request. */
  method StaleExpiry(player: Uuid, now: int, pick: nat) returns (outcomes: seq<JoinOutcome>, paid: int)
    ensures outcomes == [AwaitingConfirmation, AwaitingConfirmation, AwaitingConfirmation]
    ensures paid == 0
  {
    var lotto := new SimpleLotto(Defaults);
    var started := lotto.Start(now);
    var first, c1 := lotto.Join(player, 5);
    var order, credits := lotto.End(pick);
    started := lotto.Start(now + 1000);
    var second, c2 := lotto.Join(player, 5);
    lotto.Expire(player);   // scheduled by the first request
    var third, c3 := lotto.Join(player, 5);
    outcomes, paid := [first, second, third], c1 + c2 + c3;
  }

  /** A player without enough items is turned away, loses their pending flag
      and pays nothing. */
  method TooPoorToJoin(player: Uuid, now: int) returns (outcomes: seq<JoinOutcome>, paid: int, joined: nat)
    ensures outcomes == [AwaitingConfirmation, NotEnoughItems, AwaitingConfirmation]
    ensures paid == 0 && joined == 0
  {
    var lotto := new SimpleLotto(Config(5, 0, 0, 60, 600, []));
    var started := lotto.Start(now);
    var first, c1 := lotto.Join(player, 4);
    var second, c2 := lotto.Join(player, 4);
    var third, c3 := lotto.Join(player, 4);
    outcomes, paid, joined := [first, second, third], c1 + c2 + c3, |lotto.participants|;
  }

  /** Seed 10, fee 5, two players join: the pot is 20 and one of the two
      receives all of it. */
  method TwoPlayersOneWinner(a: Uuid, b: Uuid, now: int, pick: nat) returns (pot: int, credits: seq<Credit>)
    requires a != b && pick < 2
    ensures pot == 20
    ensures |credits| == 1 && credits[0].amount == 20 && credits[0].player in {a, b}
  {
    var lotto := new SimpleLotto(Config(5, 10, 0, 60, 600, []));
    var ra := lotto.ToggleConfirm(a);
    var rb := lotto.ToggleConfirm(b);
    var started := lotto.Start(now);
    var oa, ca := lotto.Join(a, 5);
    var ob, cb := lotto.Join(b, 9);
    pot := lotto.currentPot;
    var order;
    order, credits := lotto.End(pick);
  }

  /** One player paid 5 into a pot seeded with 10: cancelling gives back 5,
      not the pot, and forgets the player. */
  method CancelRefundsFee(player: Uuid, now: int) returns (credits: seq<Credit>, remaining: nat)
    ensures credits == [Credit(player, 5)]
    ensures remaining == 0
  {
    var lotto := new SimpleLotto(Config(5, 10, 0, 60, 600, []));
    var required := lotto.ToggleConfirm(player);
    var started := lotto.Start(now);
    var outcome, charged := lotto.Join(player, 5);
    var order;
    order, credits := lotto.Cancel();
    assert order == [player];
    remaining := |lotto.participants|;
  }

  /** Ending a round nobody joined pays nothing. */
  method EmptyRoundPaysNothing(now: int, pick: nat) returns (credits: seq<Credit>, running: bool)
    ensures credits == [] && !running
  {
    var lotto := new SimpleLotto(Config(5, 10, 0, 60, 600, []));
    var started := lotto.Start(now);
    var order;
    order, credits := lotto.End(pick);
    running := lotto.isRunning;
  }

  /** With no player minimum the first poll opens a round with nobody in it. */
  method AutoStartWithNoMinimum(now: int) returns (result: PollResult, running: bool, joined: nat)
    ensures result == Started && running && joined == 0
  {
    var lotto := new SimpleLotto(Config(1, 0, 0, 300, 1, []));
    result := lotto.Poll(true, 0, now);
    running, joined := lotto.isRunning, |lotto.participants|;
  }

  /** A round of length zero is drawn on the first run of its countdown. */
  method ZeroLengthRound(now: int, later: nat, pick: nat) returns (action: TickAction, running: bool)
    ensures action == Draw && !running
  {
    var lotto := new SimpleLotto(Config(1, 0, 0, 0, 600, [0, 1, 2]));
    var started := lotto.Start(now);
    var order, credits;
    action, order, credits := lotto.Tick(now + later, pick);
    running := lotto.isRunning;
  }

  /** Two runs of the countdown that fall in the same whole second both
      announce it: nothing but the one-second cadence of the task keeps a
      broadcast time from firing twice. */
  method TwoTicksInOneSecond(now: int, pick: nat) returns (first: TickAction, second: TickAction)
    ensures first == Announce(30) && second == Announce(30)
  {
    var lotto := new SimpleLotto(Config(1, 0, 0, 60, 600, [30]));
    var started := lotto.Start(now);
    var order, credits;
    first, order, credits := lotto.Tick(now + 29_400, pick);
    second, order, credits := lotto.Tick(now + 29_900, pick);
  }
}
