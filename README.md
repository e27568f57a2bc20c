# SimpleLotto round model

SimpleLotto is a Bukkit server plugin that runs a recurring item lottery.
Players pay a fixed number of currency items (`cost-amount`) into a pot seeded
with `initial-pot`. A countdown of `duration-seconds` runs, and then one
participant, drawn at random, receives the whole pot. A cycle task opens a new
round every `interval-seconds` when no round is running and at least
`min-players` players are online. An administrator can `start`, `end` or
`cancel` a round. Cancelling refunds the fee of every participant who is
online. A join is a
two-step protocol: the first `/lotto join` only asks the player to confirm,
and the flag expires after 10 seconds. Each player can switch the
confirmation step off with `toggleconfirm`.

The model has three modules:

- `Text` (text.dfy): `formatTime`, the `mm:ss` clock used in announcements,
  and `getItemName`, the display name of the currency item. Both are pure
  functions. Each has a partner:
  - `ParseTime` reads the clock back into seconds.
  - `ConstantName` recovers the Material constant from the display name.
- `Lotto` (lotto.dfy): the plugin object as the class `SimpleLotto`. It has
  the same fields: `isRunning`, `endTime`, `currentPot`, `participants`,
  `pendingConfirmation` and `confirmToggle`. One method models each
  transition: join, toggle-confirm, the confirmation expiry, start, end,
  cancel, disable, one run of the countdown task and one run of the cycle
  task. The object invariant `Valid()` holds in every reachable state, and
  every method keeps it:
  - a player is never both a participant and awaiting confirmation;
  - while a round runs, `currentPot == initialPot + costAmount * |participants|`.
  
  The decisions of the two periodic tasks are pure functions
  (`TickDecision`, `PollDecision`).
- `Scenarios` (scenarios.dfy): whole runs from a fresh plugin, proved from
  the transitions' contracts alone.

What the plugin takes from the server is a parameter:
- the clock, as `now` in milliseconds;
- the value of `Random.nextInt`, as `pick`;
- the number of currency items a player holds, as `held`;
- the online player count;
- whether the plugin is still enabled.

What it hands out is returned: each payout or refund is a `Credit(player,
amount)`. The participant list is built by iterating a `HashSet`, whose order
Java does not specify. `ListOf` models that iteration as any enumeration of
the set.

Behaviour of the code worth knowing, which the model keeps:
- `endLotto` leaves `participants` in place until the next start clears it.
  So the pot equation holds while a round runs, and it still holds after
  `end`.
- `cancelLotto` clears `participants` but does not reset `currentPot`.
- The drawing subcommand is `end` (Main.java:125).
- The expiry task removes the player's pending flag unconditionally. A task
  scheduled in one round can clear a flag set in the next round
  (`Scenarios.StaleExpiry`).
- Nothing but the one-second cadence of the countdown task stops a broadcast
  time from being announced twice. Two runs in the same whole second both
  announce (`Scenarios.TwoTicksInOneSecond`). Timer lag, or a task left over
  from a round that was ended and restarted within a second, can cause this.
- In the tick, the test `contains(secondsLeft) || contains(secondsLeft + 1)`
  wraps the test `contains(secondsLeft)`, so the `+ 1` never decides
  anything. The contract of `TickDecision` states the outcome without it.

## Model

| member | source | states |
|---|---|---|
| `Text.Decimal` | src/main/java/com/diamondpie/simplelotto/Main.java:377 | the numeral of a non-negative number is all digits, at least one, has no leading zero, and is one digit exactly below 10 |
| `Text.DecimalRoundTrip` | src/main/java/com/diamondpie/simplelotto/Main.java:377 | reading the printed numeral back gives the number |
| `Text.JavaDiv` | src/main/java/com/diamondpie/simplelotto/Main.java:375 | Java's `/` by a positive divisor truncates toward zero: the quotient is the integer closest to zero whose multiple does not pass the dividend |
| `Text.JavaRem` | src/main/java/com/diamondpie/simplelotto/Main.java:375-376 | Java's `/` and `%` by 60: quotient times divisor plus remainder is the dividend, and the remainder has the dividend's sign and is smaller than the divisor |
| `Text.Pad2` | src/main/java/com/diamondpie/simplelotto/Main.java:377 | `%02d` prints a non-negative number as at least two digits, exactly two below 100, and a negative number as '-' followed by digits |
| `Text.Pad2Unsigned` | src/main/java/com/diamondpie/simplelotto/Main.java:377 | the digits `%02d` prints for a non-negative number denote that number |
| `Text.FormatTime` | src/main/java/com/diamondpie/simplelotto/Main.java:374-378 | the clock of a non-negative duration is digits, ':' and exactly two digits, five characters in all under 100 minutes; a negative duration shows a '-' |
| `Text.FormatTimeRoundTrip` | src/main/java/com/diamondpie/simplelotto/Main.java:374-378 | for every non-negative number of seconds, the `m:ss` clock reads back as those seconds |
| `Text.Lower` | src/main/java/com/diamondpie/simplelotto/Main.java:382 | an upper-case ASCII letter becomes the lower-case letter at the same place in the alphabet; every other character is kept; no upper-case letter comes out |
| `Text.Upper` | src/main/java/com/diamondpie/simplelotto/Main.java:383 | a lower-case ASCII letter becomes its upper-case form; every other character is kept; the letter itself is unchanged up to case |
| `Text.LowerAll` | src/main/java/com/diamondpie/simplelotto/Main.java:382 | `toLowerCase` keeps the length and lower-cases each letter in place |
| `Text.Replace` | src/main/java/com/diamondpie/simplelotto/Main.java:382 | `replace("_", " ")` keeps the length and substitutes every '_' and nothing else |
| `Text.ItemName` | src/main/java/com/diamondpie/simplelotto/Main.java:380-384 | the display name has the constant's length; its first character is the upper-cased shown form of the first character; every later character is lower-case, with '_' shown as a space |
| `Text.ConstantName` | src/main/java/com/diamondpie/simplelotto/Main.java:382-383 | the inverse mapping: spaces back to '_', letters upper-cased, length kept |
| `Text.ItemNameRoundTrip` | src/main/java/com/diamondpie/simplelotto/Main.java:380-384 | for every Material constant name, the constant name can be recovered from the display name |
| `Text.ItemNameShape` | src/main/java/com/diamondpie/simplelotto/Main.java:382-383 | a display name contains no '_' and no upper-case letter after the first character |
| `Text.DiamondName` | src/main/java/com/diamondpie/simplelotto/Main.java:62-66 | the default currency `DIAMOND` is shown as "Diamond" |
| `Lotto.TotalOfEqualCredits` | src/main/java/com/diamondpie/simplelotto/Main.java:329-331 | credits that all carry the same amount add up to that amount times their number |
| `Lotto.ListOf` | src/main/java/com/diamondpie/simplelotto/Main.java:303 | iterating the participant set lists each participant exactly once, and nothing else |
| `Lotto.Int32` | src/main/java/com/diamondpie/simplelotto/Main.java:269 | the `(int)` cast lands in the 32-bit range, agrees with its argument modulo 2^32, and is exact on values already in range |
| `Lotto.TickDecision` | src/main/java/com/diamondpie/simplelotto/Main.java:252-275 | a countdown run stops exactly when the round is over, draws exactly when `endTime - now <= 0`, and otherwise announces exactly when the whole seconds left, cast to `int`, are a broadcast time |
| `Lotto.AnnouncedSecondsExact` | src/main/java/com/diamondpie/simplelotto/Main.java:237-273 | in a round whose end is at most `durationSeconds` away, the announced seconds are the true whole seconds left, and an announcement happens exactly when that number is listed |
| `Lotto.PollDecision` | src/main/java/com/diamondpie/simplelotto/Main.java:82-93 | a cycle run starts a round exactly when the plugin is enabled, no round runs and the online count is at least `minPlayers`; it cancels itself exactly when the plugin is disabled |
| `Lotto.SimpleLotto.constructor` | src/main/java/com/diamondpie/simplelotto/Main.java:21-26 | the plugin starts idle with pot 0, end time 0, no participants, nobody pending and no preferences, which satisfies the invariant |
| `Lotto.SimpleLotto.NeedsConfirm` | src/main/java/com/diamondpie/simplelotto/Main.java:171 | `getOrDefault(player, true)`: a player with no stored preference must confirm; otherwise the stored preference decides |
| `Lotto.SimpleLotto.ToggleConfirm` | src/main/java/com/diamondpie/simplelotto/Main.java:170-178 | the player's preference (default "confirm") is flipped and stored, and the new preference is returned |
| `Lotto.SimpleLotto.Join` | src/main/java/com/diamondpie/simplelotto/Main.java:180-225 | each outcome, with the exact condition that leads to it: no round, already joined, awaiting confirmation, not enough items, or joined. The player is charged exactly `costAmount` when admitted and nothing otherwise, so a participant is never charged twice. A first request only marks the player pending. A refusal for lack of items only clears the pending flag. An admission adds the player, clears the flag and grows the pot by the fee. The invariant is kept |
| `Lotto.SimpleLotto.Expire` | src/main/java/com/diamondpie/simplelotto/Main.java:199-205 | the expiry task removes the player's pending flag unconditionally and changes nothing else |
| `Lotto.SimpleLotto.Start` | src/main/java/com/diamondpie/simplelotto/Main.java:227-237 | while a round runs, start changes nothing. Otherwise it opens a round with the pot at `initialPot`, both sets empty and `endTime = now + durationSeconds * 1000` |
| `Lotto.SimpleLotto.End` | src/main/java/com/diamondpie/simplelotto/Main.java:285-316 | end always leaves the plugin idle. An idle or empty round pays nothing. Otherwise exactly one credit of the whole pot goes to the participant at the random index of the listed participants. Participants and pot are left in place |
| `Lotto.SimpleLotto.Cancel` | src/main/java/com/diamondpie/simplelotto/Main.java:318-333 | when idle, cancel changes nothing and pays nothing. Otherwise it stops the round, refunds exactly `costAmount` once to each participant and empties the participant set. The refunds add up to the pot minus the seed, so no fee is kept |
| `Lotto.SimpleLotto.Disable` | src/main/java/com/diamondpie/simplelotto/Main.java:52-58 | disabling the plugin during a round cancels it with the same refunds; when idle it changes nothing |
| `Lotto.SimpleLotto.Tick` | src/main/java/com/diamondpie/simplelotto/Main.java:249-277 | a countdown run acts as `TickDecision` says on the state it finds. Only a draw changes the state, and it does so exactly as end does |
| `Lotto.SimpleLotto.Poll` | src/main/java/com/diamondpie/simplelotto/Main.java:78-95 | a cycle run acts as `PollDecision` says. When it starts a round, the round is fresh; otherwise nothing changes |
| `Scenarios.ConfirmThenJoin` | src/main/java/com/diamondpie/simplelotto/Main.java:191-222 | with the default confirmation, the first join waits for confirmation, the second admits the player for one item, and a third is refused for free |
| `Scenarios.JoinTwiceWithoutConfirm` | src/main/java/com/diamondpie/simplelotto/Main.java:186-222 | with confirmation off, two joins in a row charge the fee once and admit the player once |
| `Scenarios.ExpiryRestartsProtocol` | src/main/java/com/diamondpie/simplelotto/Main.java:194-206 | after the expiry, a join starts the confirmation protocol again and charges nothing |
| `Scenarios.StaleExpiry` | src/main/java/com/diamondpie/simplelotto/Main.java:199-205 | an expiry scheduled in one round clears the player's pending flag in the next round, so their confirmation there is taken as a first request |
| `Scenarios.TooPoorToJoin` | src/main/java/com/diamondpie/simplelotto/Main.java:209-214 | a player short of items is refused without charge or admission, and must confirm again |
| `Scenarios.TwoPlayersOneWinner` | src/main/java/com/diamondpie/simplelotto/Main.java:220-315 | seed 10 and fee 5 with two players makes a pot of 20, and exactly one of the two receives all 20 |
| `Scenarios.CancelRefundsFee` | src/main/java/com/diamondpie/simplelotto/Main.java:318-333 | cancelling a round seeded with 10, where one player paid 5, refunds exactly 5 to that player and leaves no participant |
| `Scenarios.EmptyRoundPaysNothing` | src/main/java/com/diamondpie/simplelotto/Main.java:291-300 | ending a round nobody joined pays nothing and leaves the plugin idle |
| `Scenarios.AutoStartWithNoMinimum` | src/main/java/com/diamondpie/simplelotto/Main.java:88-93 | with `minPlayers` 0 and nobody online, a cycle run opens a round with no participants |
| `Scenarios.ZeroLengthRound` | src/main/java/com/diamondpie/simplelotto/Main.java:237-264 | a round of length zero is drawn on the first run of its countdown |
| `Scenarios.TwoTicksInOneSecond` | src/main/java/com/diamondpie/simplelotto/Main.java:266-275 | two countdown runs within the same whole second both announce it |

## Left out

- Server plumbing is not modelled: `onEnable`, command registration and the
  scheduling of `BukkitRunnable` tasks. Calls to `Tick`, `Poll` and `Expire`
  stand for the task runs. A live countdown task is modelled only by the
  calls it makes, so the model does not count how many tasks are alive.
- The 10-second delay of the expiry and the cycle period `intervalSeconds`
  are not modelled. `Expire` may happen at any later point, and `Poll` may
  run at any time.
- Chat messages and broadcasts (`sendInfo`, `sendHelp`,
  `sendBroadcastUpdate`, the texts in the transitions) are output only. Only
  which message is sent is kept, as `JoinOutcome`, `TickAction.Announce` and
  `PollResult`. Because the status display is not modelled, its clamping of
  the seconds left to 0 is not modelled either.
- Command routing is not modelled: `onCommand`, its `lotto.admin`
  permission checks and its player/console checks are host authorisation.
- Config loading (`loadConfigValues`) is file I/O and is not modelled. The
  configuration is a constructor argument, and `Defaults` records the
  fallback values. The currency material and its fallback to `DIAMOND` are
  not modelled; `Text.DiamondName` covers the default name.
- Inventories are not modelled. `containsAtLeast` becomes `held >= costAmount`,
  and taking items is the returned charge. A `Credit` records one call of
  `giveReward`. The plugin gives an offline recipient nothing and only logs
  a warning (Main.java:340, 354-359), so the refunds and payouts the
  contracts describe reach online players only. Items dropped because an
  inventory is full are not modelled either.
- Lotto.SimpleLotto.End: the winner is the participant at index `pick` of
  the listed participants. That `Random.nextInt` picks each index with equal
  probability is not stated.
- Lotto.SimpleLotto.Join: `currentPot` and `costAmount` are unbounded
  integers. The plugin's `int` pot would wrap past 2^31 - 1 items, and the
  model does not capture that.
- Lotto.SimpleLotto.Start: `endTime` is an unbounded integer, so the
  overflow of a `long` timestamp is not modelled.
- Text.Lower: `toLowerCase` and `toUpperCase` are modelled for ASCII letters
  only, without locale rules. Material constant names are ASCII.
- Text.FormatTime: digits are printed as ASCII decimal digits, with no
  locale-specific digits from `String.format`.
