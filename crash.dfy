/** The crash game (pages/Crash.tsx): each round a rocket's multiplier grows
    from 1 until it reaches a crash point drawn at the start of the round;
    a player who bet during the countdown may cash out at the current
    multiplier before the crash. The draw `r`, the countdown seconds and the
    animation frames (with the growth value they compute) are inputs. */
module Crash {
  import opened Casino

  datatype Phase = Idle | Countdown | Running | Crashed

  /** Length of the countdown that opens every round, in seconds. */
  const CountdownSeconds: int := 10

  /** Crash points kept on the history strip. */
  const HistoryLength: nat := 10

  /** The quantity `0.99 / (1 - r)` before truncation. */
  function RawPoint(r: real): (p: real)
    requires 0.0 <= r < 1.0
    ensures p * (1.0 - r) == 0.99
  {
    0.99 / (1.0 - r)
  }

  /** `generateCrashPoint` with its draw `r`: the raw point truncated to
      cents, and never below 1.00. */
  function CrashPoint(r: real): (p: real)
    requires 0.0 <= r < 1.0
    ensures p >= 1.0
  {
    var cents := (RawPoint(r) * 100.0).Floor as real / 100.0;
    if cents >= 1.0 then cents else 1.0
  }

  /** The point is the raw value cut to whole cents: less than a cent below
      it, and above it only where the 1.00 floor applies. */
  lemma CrashPointTruncates(r: real)
    requires 0.0 <= r < 1.0
    ensures RawPoint(r) - 0.01 < CrashPoint(r)
    ensures CrashPoint(r) <= RawPoint(r) || CrashPoint(r) == 1.0
  {
    var x := RawPoint(r) * 100.0;
    assert x.Floor as real <= x < x.Floor as real + 1.0;
  }

  /** The round crashes at once (1.00) exactly when r < 2/101, that is with
      probability about 1.98%, not the 1% the page's comment announces. */
  lemma InstantCrash(r: real)
    requires 0.0 <= r < 1.0
    ensures CrashPoint(r) == 1.0 <==> r < 2.0 / 101.0
  {
    var d := 1.0 - r;
    var x := RawPoint(r) * 100.0;
    assert x * d == 99.0;
    var f := x.Floor;
    assert f as real <= x < f as real + 1.0;
    if r < 2.0 / 101.0 {
      assert 101.0 * d > 99.0;
      assert x < 101.0;
      assert f <= 100;
    } else {
      assert 101.0 * d <= 99.0;
      assert x >= 101.0 by {
        assert x * d == 99.0 && d > 0.0;
      }
      assert f >= 101;
    }
  }

  lemma RawPointMonotone(r1: real, r2: real)
    requires 0.0 <= r1 <= r2 < 1.0
    ensures RawPoint(r1) <= RawPoint(r2)
    ensures r1 < r2 ==> RawPoint(r1) < RawPoint(r2)
  {
    var d1, d2 := 1.0 - r1, 1.0 - r2;
    assert RawPoint(r1) * d1 == 0.99 && RawPoint(r2) * d2 == 0.99;
    assert RawPoint(r2) * d1 >= RawPoint(r2) * d2;
    if r1 < r2 {
      assert RawPoint(r2) * d1 > RawPoint(r2) * d2;
    }
  }

  /** A larger draw never gives a lower crash point. */
  lemma CrashPointMonotone(r1: real, r2: real)
    requires 0.0 <= r1 <= r2 < 1.0
    ensures CrashPoint(r1) <= CrashPoint(r2)
  {
    RawPointMonotone(r1, r2);
    var x1, x2 := RawPoint(r1) * 100.0, RawPoint(r2) * 100.0;
    assert x1 <= x2;
    assert x1.Floor <= x2.Floor;
  }

  /** `[crashPoint, ...prev].slice(0, 10)`: newest first, at most ten kept. */
  function PushHistory(history: seq<real>, point: real): (r: seq<real>)
    ensures |r| == if |history| < HistoryLength then |history| + 1 else HistoryLength
    ensures r[0] == point && r[1..] == history[..|r| - 1]
  {
    ([point] + history)[..if |history| < HistoryLength then |history| + 1 else HistoryLength]
  }

  /** A point stays on the strip for ten crashes and then drops off. */
  lemma {:induction false} HistoryShifts(history: seq<real>, points: seq<real>)
    requires |history| <= HistoryLength && |points| <= HistoryLength
    ensures |Pushed(history, points)| == if |history| + |points| < HistoryLength then |history| + |points| else HistoryLength
    ensures forall i :: 0 <= i < |points| ==> Pushed(history, points)[i] == points[|points| - 1 - i]
    decreases |points|
  {
    if points != [] {
      var n := |points|;
      HistoryShifts(history, points[..n - 1]);
      var prev := Pushed(history, points[..n - 1]);
      var now := Pushed(history, points);
      assert now == PushHistory(prev, points[n - 1]);
      forall i | 0 <= i < n
        ensures now[i] == points[n - 1 - i]
      {
        if i > 0 {
          assert now[i] == prev[i - 1];
        }
      }
    }
  }

  /** The history after several crashes, oldest crash first in `points`. */
  function Pushed(history: seq<real>, points: seq<real>): seq<real>
  {
    if points == [] then history
    else PushHistory(Pushed(history, points[..|points| - 1]), points[|points| - 1])
  }

  class Round {
    const wallet: Wallet
    var gameState: Phase
    var multiplier: real
    var bet: real
    var hasBet: bool
    var cashedOutAt: Option<real>
    var crashPoint: real
    var history: seq<real>
    var countdown: int

    /** Once a round has started the rocket flies between 1 and the crash
        point, and a cash-out happened at a multiplier no higher than it. */
    ghost predicate Valid()
      reads this
    {
      |history| <= HistoryLength && 0 <= countdown <= CountdownSeconds &&
      (gameState != Idle ==> 1.0 <= crashPoint && 1.0 <= multiplier <= crashPoint) &&
      (gameState == Idle || gameState == Countdown ==> multiplier == 1.0 && cashedOutAt == None) &&
      (gameState == Crashed ==> multiplier == crashPoint) &&
      (cashedOutAt.Some? ==> hasBet && 1.0 <= cashedOutAt.value <= crashPoint)
    }

    /** The page before its mount effect runs. */
    constructor (w: Wallet)
      ensures Valid() && wallet == w
      ensures gameState == Idle && multiplier == 1.0 && bet == 10.0 && !hasBet
      ensures cashedOutAt == None && crashPoint == 0.0 && history == [] && countdown == CountdownSeconds
    {
      wallet := w;
      gameState := Idle;
      multiplier := 1.0;
      bet := 10.0;
      hasBet := false;
      cashedOutAt := None;
      crashPoint := 0.0;
      history := [];
      countdown := CountdownSeconds;
    }

    /** `startGameLoop`, run on mount and 5 s after every crash: a new crash
        point and a fresh ten-second countdown with no bet. */
    method StartGameLoop(r: real)
      requires Valid() && (gameState == Idle || gameState == Crashed) && 0.0 <= r < 1.0
      modifies this`crashPoint, this`gameState, this`countdown, this`multiplier, this`cashedOutAt, this`hasBet
      ensures Valid()
      ensures crashPoint == CrashPoint(r) && gameState == Countdown && countdown == CountdownSeconds
      ensures multiplier == 1.0 && cashedOutAt == None && !hasBet
    {
      crashPoint := CrashPoint(r);
      gameState := Countdown;
      countdown := CountdownSeconds;
      multiplier := 1.0;
      cashedOutAt := None;
      hasBet := false;
    }

    /** `placeBet` (the button is offered only while no bet is placed):
        accepted before take-off and when the stake is covered, debiting it
        once. */
    method PlaceBet()
      requires Valid() && !hasBet
      modifies this`hasBet, wallet
      ensures Valid()
      ensures (old(gameState) != Countdown && old(gameState) != Idle) || old(wallet.user.balance) < bet ==>
                !hasBet && wallet.user == old(wallet.user)
      ensures (old(gameState) == Countdown || old(gameState) == Idle) && old(wallet.user.balance) >= bet ==>
                hasBet && wallet.user == WithDelta(old(wallet.user), -bet)
    {
      if gameState != Countdown && gameState != Idle {
        return;
      }
      if wallet.user.balance < bet {
        return;
      }
      hasBet := true;
      wallet.UpdateBalance(-bet);
    }

    /** `cancelBet`: before take-off it clears the bet and refunds the stake,
        whether or not a bet was placed. */
    method CancelBet()
      requires Valid()
      modifies this`hasBet, wallet
      ensures Valid()
      ensures old(gameState) != Countdown && old(gameState) != Idle ==>
                hasBet == old(hasBet) && wallet.user == old(wallet.user)
      ensures old(gameState) == Countdown || old(gameState) == Idle ==>
                !hasBet && wallet.user == WithDelta(old(wallet.user), bet)
    {
      if gameState != Countdown && gameState != Idle {
        return;
      }
      hasBet := false;
      wallet.UpdateBalance(bet);
    }

    /** `cashOut`: while flying, with a bet and no earlier cash-out, pays the
        stake times the current multiplier and records it; any later call in
        the round does nothing. */
    method CashOut()
      requires Valid()
      modifies this`cashedOutAt, wallet
      ensures Valid()
      ensures old(gameState) != Running || !hasBet || old(cashedOutAt).Some? ==>
                cashedOutAt == old(cashedOutAt) && wallet.user == old(wallet.user)
      ensures old(gameState) == Running && hasBet && old(cashedOutAt) == None ==>
                cashedOutAt == Some(multiplier) &&
                wallet.user == WithDelta(old(wallet.user), bet * multiplier)
    {
      if gameState != Running || !hasBet || cashedOutAt.Some? {
        return;
      }
      var winAmount := bet * multiplier;
      wallet.UpdateBalance(winAmount);
      cashedOutAt := Some(multiplier);
    }

    /** One second of the countdown effect: a tick, or take-off at zero. */
    method CountdownTick()
      requires Valid() && gameState == Countdown
      modifies this`countdown, this`gameState
      ensures Valid()
      ensures old(countdown) > 0 ==> countdown == old(countdown) - 1 && gameState == Countdown
      ensures old(countdown) == 0 ==> countdown == 0 && gameState == Running
    {
      if countdown > 0 {
        countdown := countdown - 1;
      } else {
        gameState := Running;
      }
    }

    /** One animation frame of `update`, given the growth value of the frame:
        at or past the crash point the multiplier is clamped to it and the
        round crashes, so it never shows more than the crash point. */
    method Update(growth: real)
      requires Valid() && gameState == Running
      modifies this`multiplier, this`gameState, this`history
      ensures Valid()
      ensures var currentM := if growth >= 1.0 then growth else 1.0;
              if currentM >= crashPoint then
                multiplier == crashPoint && gameState == Crashed &&
                history == PushHistory(old(history), crashPoint)
              else
                multiplier == currentM && gameState == Running && history == old(history)
      ensures multiplier <= crashPoint
    {
      var currentM := if growth >= 1.0 then growth else 1.0;
      if currentM >= crashPoint {
        multiplier := crashPoint;
        Crash();
      } else {
        multiplier := currentM;
      }
    }

    /** `crash`: the round ends and its point goes to the head of the history. */
    method Crash()
      requires Valid() && gameState == Running && multiplier == crashPoint
      modifies this`gameState, this`history
      ensures Valid() && gameState == Crashed
      ensures history == PushHistory(old(history), crashPoint)
    {
      gameState := Crashed;
      history := PushHistory(history, crashPoint);
    }

    /** The "−" stake button (disabled once a bet is placed). */
    method DecreaseBet()
      requires Valid() && !hasBet
      modifies this`bet
      ensures Valid()
      ensures bet == if old(bet) - 10.0 >= 10.0 then old(bet) - 10.0 else 10.0
    {
      bet := if bet - 10.0 >= 10.0 then bet - 10.0 else 10.0;
    }

    /** The "+" stake button: never above the balance. */
    method IncreaseBet()
      requires Valid() && !hasBet
      modifies this`bet
      ensures Valid()
      ensures bet == if old(bet) + 10.0 <= wallet.user.balance then old(bet) + 10.0 else wallet.user.balance
    {
      bet := if bet + 10.0 <= wallet.user.balance then bet + 10.0 else wallet.user.balance;
    }

    /** The quick-stake buttons 10, 50, 100 and 500. */
    method SetBet(value: real)
      requires Valid() && !hasBet && value in {10.0, 50.0, 100.0, 500.0}
      modifies this`bet
      ensures Valid() && bet == value
    {
      bet := value;
    }
  }
}
