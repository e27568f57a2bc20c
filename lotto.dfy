/** The lottery round of the SimpleLotto plugin: its configuration, the round
    state kept by the plugin object, and the transitions start, join, end,
    cancel, toggle-confirm, the confirmation expiry, the countdown tick and the
    auto-start poll.

    What the plugin reads from the server is passed in: the clock (`now`, in
    milliseconds), the random index drawn for the winner (`pick`), the number
    of currency items a player holds (`held`), the online player count and
    whether the plugin is still enabled. What it hands to players is passed
    out: every payout or refund is a `Credit`. */
module Lotto {

  /** A player's identity (a UUID in the plugin). */
  type Uuid = nat

  /** The values read from config.yml once at start-up. */
  datatype Config = Config(
    costAmount: int,
    initialPot: int,
    minPlayers: int,
    durationSeconds: int,
    intervalSeconds: int,
    broadcastTimes: seq<int>)

  /** The values used when a key is missing from config.yml. */
  const Defaults := Config(1, 0, 0, 300, 600, [])

  /** `amount` currency items handed to `player` (`giveReward`). */
  datatype Credit = Credit(player: Uuid, amount: int)

  /** Which message `handleJoin` ends with. */
  datatype JoinOutcome = NoRound | AlreadyJoined | AwaitingConfirmation | NotEnoughItems | Joined

  /** What one run of the countdown task does. */
  datatype TickAction = StopTimer | Draw | Announce(secondsLeft: int) | Quiet

  /** What one run of the cycle task does. */
  datatype PollResult = TimerCancelled | RoundInProgress | TooFewPlayers | Started

  // ---------------------------------------------------------------------
  // Payout totals
  // ---------------------------------------------------------------------

  function Total(credits: seq<Credit>): int
  {
    if credits == [] then 0 else credits[0].amount + Total(credits[1..])
  }

  /** Credits that are all of one amount add up to that amount times their number. */
  lemma {:induction false} TotalOfEqualCredits(credits: seq<Credit>, amount: int)
    requires forall i :: 0 <= i < |credits| ==> credits[i].amount == amount
    ensures Total(credits) == amount * |credits|
  {
    if credits != [] {
      TotalOfEqualCredits(credits[1..], amount);
    }
  }

  // ---------------------------------------------------------------------
  // Iteration order of a HashSet
  // ---------------------------------------------------------------------

  predicate Distinct(order: seq<Uuid>)
  {
    forall i, j :: 0 <= i < j < |order| ==> order[i] != order[j]
  }

  /** `order` lists every element of `s` exactly once. */
  predicate Enumerates(order: seq<Uuid>, s: set<Uuid>)
  {
    && Distinct(order)
    && |order| == |s|
    && (forall i :: 0 <= i < |order| ==> order[i] in s)
    && (forall x :: x in s ==> x in order)
  }

  /** The order in which the plugin walks the participant set, both for
      `new ArrayList<>(participants)` and for the refund loop. The order a
      HashSet uses is not specified, so any enumeration may come out. */
  method ListOf(s: set<Uuid>) returns (order: seq<Uuid>)
    ensures Enumerates(order, s)
  {
    order := [];
    var rest := s;
    while rest != {}
      invariant rest <= s
      invariant Distinct(order)
      invariant |order| + |rest| == |s|
      invariant forall i :: 0 <= i < |order| ==> order[i] in s && order[i] !in rest
      invariant forall x :: x in s ==> x in rest || x in order
      decreases rest
    {
      var x :| x in rest;
      order := order + [x];
      rest := rest - {x};
    }
  }

  // ---------------------------------------------------------------------
  // Java integer casts
  // ---------------------------------------------------------------------

  /** Java's `(int)` cast and `int` arithmetic: two's complement wrap-around. */
  function Int32(x: int): (r: int)
    ensures -0x8000_0000 <= r < 0x8000_0000
    ensures (x - r) % 0x1_0000_0000 == 0
    ensures -0x8000_0000 <= x < 0x8000_0000 ==> r == x
  {
    (x + 0x8000_0000) % 0x1_0000_0000 - 0x8000_0000
  }

  // ---------------------------------------------------------------------
  // Countdown tick and cycle poll
  // ---------------------------------------------------------------------

  /** One run of the countdown task started by `startLotto`: stop when the
      round is over, draw when the end time has come, otherwise announce when
      the whole seconds left are a configured broadcast time. The code also
      tests `secondsLeft + 1`, but only inside a test that again requires
      `secondsLeft`, so that disjunct never decides anything. */
  function TickDecision(running: bool, endTime: int, now: int, times: seq<int>): (a: TickAction)
    ensures a == StopTimer <==> !running
    ensures a == Draw <==> running && endTime - now <= 0
    ensures a.Announce? <==> running && endTime - now > 0 && Int32((endTime - now) / 1000) in times
    ensures a.Announce? ==> a.secondsLeft == Int32((endTime - now) / 1000)
  {
    if !running then StopTimer
    else
      var timeLeftMillis := endTime - now;
      if timeLeftMillis <= 0 then Draw
      else
        // positive, so Euclidean and truncating division agree
        var secondsLeft := Int32(timeLeftMillis / 1000);
        if (secondsLeft in times || Int32(secondsLeft + 1) in times) && secondsLeft in times
        then Announce(secondsLeft)
        else Quiet
  }

  /** Inside a round whose end is at most `durationSeconds` away the cast to
      `int` is exact: the announced value is the true number of whole seconds
      left, and it is announced exactly when that number is listed. */
  lemma AnnouncedSecondsExact(endTime: int, now: int, c: Config)
    requires 0 < endTime - now <= c.durationSeconds * 1000
    requires c.durationSeconds < 0x8000_0000
    ensures TickDecision(true, endTime, now, c.broadcastTimes).Announce? ==>
              TickDecision(true, endTime, now, c.broadcastTimes).secondsLeft == (endTime - now) / 1000
    ensures TickDecision(true, endTime, now, c.broadcastTimes).Announce? <==>
              (endTime - now) / 1000 in c.broadcastTimes
  {
  }

  /** One run of the cycle task: stop with the plugin, leave a running round
      alone, and start a round only when enough players are online. */
  function PollDecision(enabled: bool, running: bool, online: int, minPlayers: int): (r: PollResult)
    ensures r == Started <==> enabled && !running && online >= minPlayers
    ensures r == TimerCancelled <==> !enabled
    ensures r == RoundInProgress <==> enabled && running
  {
    if !enabled then TimerCancelled
    else if running then RoundInProgress
    else if online >= minPlayers then Started
    else TooFewPlayers
  }

  // ---------------------------------------------------------------------
  // The plugin's round state
  // ---------------------------------------------------------------------

  class SimpleLotto {
    const config: Config
    var isRunning: bool
    var endTime: int
    var currentPot: int
    var participants: set<Uuid>
    var pendingConfirmation: set<Uuid>
    /** true: the player must confirm a join; absent means true. */
    var confirmToggle: map<Uuid, bool>

    /** A player is never both a participant and waiting to confirm, and while
        a round runs its pot is the seed plus one fee per participant. */
    ghost predicate Valid()
      reads this
    {
      && participants !! pendingConfirmation
      && (isRunning ==> currentPot == config.initialPot + config.costAmount * |participants|)
    }

    /** `confirmToggle.getOrDefault(player, true)`. */
    function NeedsConfirm(player: Uuid): (required: bool)
      reads this
      ensures player !in confirmToggle ==> required
      ensures player in confirmToggle ==> required == confirmToggle[player]
    {
      if player in confirmToggle then confirmToggle[player] else true
    }

    /** The state `startLotto` leaves behind. */
    ghost predicate FreshRound(now: int)
      reads this
    {
      && isRunning
      && currentPot == config.initialPot
      && participants == {}
      && pendingConfirmation == {}
      && endTime == now + config.durationSeconds * 1000
    }

    /** `credits` refund the fee once to each element of `ps`, in the order `order`. */
    ghost predicate Refunds(ps: set<Uuid>, order: seq<Uuid>, credits: seq<Credit>)
    {
      && Enumerates(order, ps)
      && |credits| == |order|
      && forall i :: 0 <= i < |credits| ==> credits[i] == Credit(order[i], config.costAmount)
    }

    /** `credits` pay the whole pot to the participant at index `pick` of the
        materialised list `order`, or pay nothing when nobody joined. */
    ghost predicate Prize(pick: nat, order: seq<Uuid>, credits: seq<Credit>)
      reads this
    {
      if participants == {} then credits == []
      else
        && Enumerates(order, participants)
        && pick < |order|
        && credits == [Credit(order[pick], currentPot)]
    }

    constructor (config: Config)
      ensures Valid()
      ensures this.config == config
      ensures !isRunning && endTime == 0 && currentPot == 0
      ensures participants == {} && pendingConfirmation == {} && confirmToggle == map[]
    {
      this.config := config;
      isRunning := false;
      endTime := 0;
      currentPot := 0;
      participants := {};
      pendingConfirmation := {};
      confirmToggle := map[];
    }

    /** `/lotto toggleconfirm`: flips the player's confirmation preference,
        whether or not a round is running. */
    method ToggleConfirm(player: Uuid) returns (required: bool)
      modifies this`confirmToggle
      ensures required == !old(NeedsConfirm(player))
      ensures NeedsConfirm(player) == required
      ensures confirmToggle == old(confirmToggle)[player := required]
    {
      var current := NeedsConfirm(player);
      confirmToggle := confirmToggle[player := !current];
      required := !current;
    }

    /** `/lotto join` by a player holding `held` currency items. Returns which
        message the player gets and how many items were taken from them. */
    method Join(player: Uuid, held: nat) returns (outcome: JoinOutcome, charged: int)
      requires Valid()
      modifies this`participants, this`pendingConfirmation, this`currentPot
      ensures Valid()
      // the player is charged exactly the fee when admitted, and otherwise nothing
      ensures charged == (if outcome == Joined then config.costAmount else 0)
      ensures outcome == NoRound <==> !isRunning
      ensures outcome == AlreadyJoined <==> isRunning && player in old(participants)
      ensures outcome == AwaitingConfirmation <==>
                isRunning && player !in old(participants)
                && NeedsConfirm(player) && player !in old(pendingConfirmation)
      ensures outcome == NotEnoughItems <==>
                isRunning && player !in old(participants)
                && !(NeedsConfirm(player) && player !in old(pendingConfirmation))
                && held < config.costAmount
      ensures outcome == Joined <==> player in participants - old(participants)
      ensures outcome in {NoRound, AlreadyJoined} ==>
                participants == old(participants) && pendingConfirmation == old(pendingConfirmation)
                && currentPot == old(currentPot)
      ensures outcome == AwaitingConfirmation ==>
                participants == old(participants) && currentPot == old(currentPot)
                && pendingConfirmation == old(pendingConfirmation) + {player}
      ensures outcome == NotEnoughItems ==>
                participants == old(participants) && currentPot == old(currentPot)
                && pendingConfirmation == old(pendingConfirmation) - {player}
      ensures outcome == Joined ==>
                participants == old(participants) + {player}
                && pendingConfirmation == old(pendingConfirmation) - {player}
                && currentPot == old(currentPot) + config.costAmount
    {
      if !isRunning {
        return NoRound, 0;
      }
      if player in participants {
        return AlreadyJoined, 0;
      }
      var needConfirm := NeedsConfirm(player);
      if needConfirm && player !in pendingConfirmation {
        // the expiry task scheduled here is the separate event Expire
        pendingConfirmation := pendingConfirmation + {player};
        return AwaitingConfirmation, 0;
      }
      if held < config.costAmount {
        pendingConfirmation := pendingConfirmation - {player};
        return NotEnoughItems, 0;
      }
      participants := participants + {player};
      pendingConfirmation := pendingConfirmation - {player};
      currentPot := currentPot + config.costAmount;
      outcome, charged := Joined, config.costAmount;
    }

    /** The task scheduled 10 seconds after a first join request: it drops the
        player's pending flag whatever has happened since, even when a later
        round has given the player a new one. */
    method Expire(player: Uuid)
      requires Valid()
      modifies this`pendingConfirmation
      ensures Valid()
      ensures pendingConfirmation == old(pendingConfirmation) - {player}
    {
      pendingConfirmation := pendingConfirmation - {player};
    }

    /** `startLotto`: opens a round ending `durationSeconds` after `now`,
        unless one is already running. */
    method Start(now: int) returns (started: bool)
      requires Valid()
      modifies this`isRunning, this`currentPot, this`participants, this`pendingConfirmation, this`endTime
      ensures Valid()
      ensures started == !old(isRunning)
      ensures started ==> FreshRound(now)
      ensures !started ==> unchanged(this)
    {
      if isRunning {
        return false;
      }
      isRunning := true;
      currentPot := config.initialPot;
      participants := {};
      pendingConfirmation := {};
      endTime := now + config.durationSeconds * 1000;
      started := true;
    }

    /** `endLotto`: closes the round and pays the whole pot to the participant
        at index `pick` (the value of `Random.nextInt`) of the participant list.
        The participant set and the pot are left as they are until the next
        start. */
    method End(pick: nat) returns (order: seq<Uuid>, credits: seq<Credit>)
      requires Valid()
      requires isRunning && participants != {} ==> pick < |participants|
      modifies this`isRunning
      ensures Valid()
      ensures !isRunning
      ensures !old(isRunning) ==> credits == []
      ensures old(isRunning) ==> Prize(pick, order, credits)
      ensures old(isRunning) && participants != {} ==>
                Total(credits) == currentPot && credits[0].player in participants
    {
      order, credits := [], [];
      if !isRunning {
        return;
      }
      isRunning := false;
      if participants == {} {
        return;
      }
      order := ListOf(participants);
      var winner := order[pick];
      credits := [Credit(winner, currentPot)];
    }

    /** `cancelLotto`: closes the round and refunds the fee to every
        participant, then forgets them. The pot is not reset. */
    method Cancel() returns (order: seq<Uuid>, credits: seq<Credit>)
      requires Valid()
      modifies this`isRunning, this`participants
      ensures Valid()
      ensures !isRunning
      ensures !old(isRunning) ==> credits == [] && participants == old(participants)
      ensures old(isRunning) ==> participants == {} && Refunds(old(participants), order, credits)
      // everything the players paid in this round goes back to them
      ensures old(isRunning) ==> Total(credits) == currentPot - config.initialPot
    {
      order, credits := [], [];
      if !isRunning {
        return;
      }
      isRunning := false;
      order := ListOf(participants);
      for i := 0 to |order|
        invariant |credits| == i
        invariant forall k :: 0 <= k < i ==> credits[k] == Credit(order[k], config.costAmount)
      {
        credits := credits + [Credit(order[i], config.costAmount)];
      }
      TotalOfEqualCredits(credits, config.costAmount);
      participants := {};
    }

    /** `onDisable`: a round still running is cancelled, so no fee is kept. */
    method Disable() returns (order: seq<Uuid>, credits: seq<Credit>)
      requires Valid()
      modifies this`isRunning, this`participants
      ensures Valid()
      ensures !isRunning
      ensures !old(isRunning) ==> credits == [] && participants == old(participants)
      ensures old(isRunning) ==> participants == {} && Refunds(old(participants), order, credits)
    {
      order, credits := [], [];
      if isRunning {
        order, credits := Cancel();
      }
    }

    /** One run of the countdown task at time `now`; on a draw, `pick` is the
        random index. */
    method Tick(now: int, pick: nat) returns (action: TickAction, order: seq<Uuid>, credits: seq<Credit>)
      requires Valid()
      requires isRunning && endTime - now <= 0 && participants != {} ==> pick < |participants|
      modifies this`isRunning
      ensures Valid()
      ensures action == TickDecision(old(isRunning), endTime, now, config.broadcastTimes)
      ensures action != Draw ==> isRunning == old(isRunning) && credits == []
      ensures action == Draw ==> !isRunning && Prize(pick, order, credits)
    {
      action := TickDecision(isRunning, endTime, now, config.broadcastTimes);
      order, credits := [], [];
      if action == Draw {
        order, credits := End(pick);
      }
    }

    /** One run of the cycle task with `online` players on the server. */
    method Poll(enabled: bool, online: nat, now: int) returns (result: PollResult)
      requires Valid()
      modifies this`isRunning, this`currentPot, this`participants, this`pendingConfirmation, this`endTime
      ensures Valid()
      ensures result == PollDecision(enabled, old(isRunning), online, config.minPlayers)
      ensures result == Started ==> FreshRound(now)
      ensures result != Started ==> unchanged(this)
    {
      result := PollDecision(enabled, isRunning, online, config.minPlayers);
      if result == Started {
        var started := Start(now);
      }
    }
  }
}
