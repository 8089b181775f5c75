/** Consecutive runs of determine_regime, each feeding its state to the next: the
    anti-whipsaw guarantees the hysteresis is there to give. */
module RegimeRuns {
  import opened Common
  import opened Config
  import opened Regime

  /** The inputs of one run: composite score, BTC gate and wall-clock time. */
  datatype Day = Day(score: real, gate: Option<bool>, now: int)

  /** The raw classification of one run. */
  function Raw(c: Settings, d: Day): Regime
  {
    Classify(c, d.score, d.gate)
  }

  /** The state after running on each day in turn. */
  function Replay(c: Settings, s: RegimeState, days: seq<Day>): (r: RegimeState)
    ensures WellFormed(s) ==> WellFormed(r)
    ensures WellFormed(s) && |days| > 0 ==> Settled(c, r)
    ensures |r.history| == |s.history| + |days|
    ensures |days| > 0 ==> r.proposed == Raw(c, days[|days| - 1])
    decreases |days|
  {
    if |days| == 0 then s
    else Replay(c, Step(c, s, days[0].score, days[0].gate, days[0].now).0, days[1..])
  }

  /** Every run classifies the same way. */
  predicate AllRaw(c: Settings, days: seq<Day>, g: Regime)
  {
    forall i :: 0 <= i < |days| ==> Raw(c, days[i]) == g
  }

  /** `g` is already reported, or it is pending with at least `k` consecutive runs. */
  predicate Towards(s: RegimeState, g: Regime, k: int)
  {
    s.current == g || (s.proposed == g && s.consecutiveDays >= k)
  }

  /** While every run classifies as `g`, a state heading to `g` keeps heading there
      and its count grows by one per run. */
  lemma {:induction false} KeepsCounting(c: Settings, s: RegimeState, days: seq<Day>, g: Regime, k: int)
    requires AllRaw(c, days, g)
    requires Towards(s, g, k)
    ensures Towards(Replay(c, s, days), g, k + |days|)
    decreases |days|
  {
    if |days| > 0 {
      var next := Step(c, s, days[0].score, days[0].gate, days[0].now).0;
      assert Raw(c, days[0]) == g;
      assert Towards(next, g, k + 1);
      assert AllRaw(c, days[1..], g) by {
        forall i | 0 <= i < |days| - 1 ensures Raw(c, days[1..][i]) == g {
          assert days[1..][i] == days[i + 1];
        }
      }
      KeepsCounting(c, next, days[1..], g, k + 1);
    }
  }

  /** A raw classification seen on as many consecutive runs as the configuration
      requires is the reported regime after the last of them, whatever the state
      before. */
  lemma ConfirmedClassificationFlips(c: Settings, s: RegimeState, days: seq<Day>, g: Regime)
    requires WellFormed(s)
    requires AllRaw(c, days, g)
    requires |days| >= 1 && |days| >= c.consecutiveDaysRequired
    ensures Replay(c, s, days).current == g
  {
    var next := Step(c, s, days[0].score, days[0].gate, days[0].now).0;
    assert Raw(c, days[0]) == g;
    assert Towards(next, g, 1);
    assert AllRaw(c, days[1..], g) by {
      forall i | 0 <= i < |days| - 1 ensures Raw(c, days[1..][i]) == g {
        assert days[1..][i] == days[i + 1];
      }
    }
    KeepsCounting(c, next, days[1..], g, 1);
    assert Replay(c, s, days) == Replay(c, next, days[1..]);
  }

  /** Each run's raw classification differs from the run before (the first from the
      state's last proposal) and none is past the margin. */
  predicate Whipsaw(c: Settings, previous: Regime, days: seq<Day>)
  {
    && (|days| > 0 ==> Raw(c, days[0]) != previous)
    && (forall i :: 1 <= i < |days| ==> Raw(c, days[i]) != Raw(c, days[i - 1]))
    && (forall i :: 0 <= i < |days| ==> !MarginPasses(c, Raw(c, days[i]), days[i].score))
  }

  /** When a flip needs at least two consecutive runs, classifications that change on
      every run and never clear the margin leave the reported regime unchanged. */
  lemma {:induction false} WhipsawNeverFlips(c: Settings, s: RegimeState, days: seq<Day>)
    requires c.consecutiveDaysRequired >= 2
    requires Whipsaw(c, s.proposed, days)
    ensures Replay(c, s, days).current == s.current
    decreases |days|
  {
    if |days| > 0 {
      var next := Step(c, s, days[0].score, days[0].gate, days[0].now).0;
      assert !MarginPasses(c, Raw(c, days[0]), days[0].score);
      assert next.current == s.current;
      var rest := days[1..];
      assert Whipsaw(c, next.proposed, rest) by {
        assert forall i :: 0 <= i < |rest| ==> rest[i] == days[i + 1];
        if |rest| > 0 {
          assert Raw(c, rest[0]) != Raw(c, days[0]);
        }
      }
      WhipsawNeverFlips(c, next, rest);
    }
  }

  /** Once reported, a regime stays while every run classifies the same way. */
  lemma {:induction false} ConfirmedRegimeHolds(c: Settings, s: RegimeState, days: seq<Day>)
    requires AllRaw(c, days, s.current)
    ensures Replay(c, s, days).current == s.current
    decreases |days|
  {
    if |days| > 0 {
      var next := Step(c, s, days[0].score, days[0].gate, days[0].now).0;
      assert Raw(c, days[0]) == s.current;
      assert AllRaw(c, days[1..], s.current) by {
        forall i | 0 <= i < |days| - 1 ensures Raw(c, days[1..][i]) == s.current {
          assert days[1..][i] == days[i + 1];
        }
      }
      ConfirmedRegimeHolds(c, next, days[1..]);
    }
  }

  /** With the shipped settings a one-run excursion within the margin does not move
      the reported regime, while two identical runs do. */
  lemma ShippedHysteresis(s: RegimeState, d1: Day, d2: Day)
    requires WellFormed(s)
    ensures Raw(Shipped, d1) != s.proposed && !MarginPasses(Shipped, Raw(Shipped, d1), d1.score) ==>
              Replay(Shipped, s, [d1]).current == s.current
    ensures Raw(Shipped, d1) == Raw(Shipped, d2) ==>
              Replay(Shipped, s, [d1, d2]).current == Raw(Shipped, d1)
  {
    if Raw(Shipped, d1) != s.proposed && !MarginPasses(Shipped, Raw(Shipped, d1), d1.score) {
      WhipsawNeverFlips(Shipped, s, [d1]);
    }
    if Raw(Shipped, d1) == Raw(Shipped, d2) {
      assert AllRaw(Shipped, [d1, d2], Raw(Shipped, d1));
      ConfirmedClassificationFlips(Shipped, s, [d1, d2], Raw(Shipped, d1));
    }
  }
}
