/**
 * The economy tables and lookups: the superpowers (diamond multiplier, cap and
 * price), the difficulty modes, `findIndex`/`find` over them, and the diamonds
 * a finished run earns.
 */
module Economy {
  import opened Arith

  datatype Option<T> = None | Some(value: T)

  /** A superpower: its id, the score multiplier and cap for diamonds, and its price in diamonds. */
  datatype Power = Power(id: string, mult: real, cap: int, price: int)

  /** A difficulty mode: scroll speed per tick, spawn interval in ms, and gap share of the viewport. */
  datatype Mode = Mode(id: string, speed: real, interval: real, gap: real)

  /** The superpowers, from best to worst; the free 'normal' one is third. */
  const Powers: seq<Power> := [
    Power("legend", 1.5, 150, 120),
    Power("great", 1.3, 130, 90),
    Power("normal", 1.0, 100, 0),
    Power("helpful", 0.85, 80, 60),
    Power("quirky", 0.6, 50, 30)
  ]

  /** Index of the power selected when nothing else has been chosen. */
  const NormalIdx: nat := 2

  const Modes: seq<Mode> := [
    Mode("easy", 1.8, 1800.0, 0.28),
    Mode("medium", 2.6, 1500.0, 0.22),
    Mode("hard", 3.4, 1200.0, 0.18),
    Mode("veryhard", 4.2, 1000.0, 0.16)
  ]

  /** The facts about the power table the rest of the model relies on. */
  lemma PowersTable()
    ensures Powers[NormalIdx].id == "normal" && Powers[NormalIdx].price == 0
    ensures forall i :: 0 <= i < |Powers| ==> Powers[i].mult >= 0.0 && Powers[i].cap >= 0 && Powers[i].price >= 0
    ensures forall i, j :: 0 <= i < j < |Powers| ==> Powers[i].id != Powers[j].id
  {
  }

  /** `findIndex` from position `from` on: the first power at or after `from` with that id, or -1. */
  function IndexFrom(ps: seq<Power>, id: string, from: nat): (i: int)
    requires from <= |ps|
    ensures i == -1 || from <= i < |ps|
    ensures i >= 0 ==> ps[i].id == id
    ensures forall j :: from <= j < |ps| && (i == -1 || j < i) ==> ps[j].id != id
    decreases |ps| - from
  {
    if from == |ps| then -1
    else if ps[from].id == id then from
    else IndexFrom(ps, id, from + 1)
  }

  /** `powers.findIndex(p => p.id === id)`: the index of the first power with that id, or -1 when there is none. */
  function FindPowerIndex(id: string): (i: int)
    ensures -1 <= i < |Powers|
    ensures i >= 0 ==> Powers[i].id == id
    ensures i == -1 <==> forall j :: 0 <= j < |Powers| ==> Powers[j].id != id
  {
    IndexFrom(Powers, id, 0)
  }

  /** Looking up 'normal' finds the free power at its fixed index. */
  lemma NormalIndex()
    ensures FindPowerIndex("normal") == NormalIdx
  {
    PowersTable();
  }

  /** `modes.find(m => m.id === id)`: the first mode with that id, if any. */
  function FirstMode(ms: seq<Mode>, id: string): (r: Option<Mode>)
    ensures r.Some? ==> r.value in ms && r.value.id == id
    ensures r.None? ==> forall j :: 0 <= j < |ms| ==> ms[j].id != id
  {
    if |ms| == 0 then None
    else if ms[0].id == id then Some(ms[0])
    else FirstMode(ms[1..], id)
  }

  /** The mode `applyMode` installs: the one with that id, or 'medium' (the second mode) when no mode has it. */
  function FindMode(id: string): (m: Mode)
    ensures m in Modes
    ensures (exists j :: 0 <= j < |Modes| && Modes[j].id == id) ==> m.id == id
    ensures (forall j :: 0 <= j < |Modes| ==> Modes[j].id != id) ==> m == Modes[1]
  {
    match FirstMode(Modes, id)
    case Some(m) => m
    case None => Modes[1]
  }

  /** Mode ids are distinct, so a mode is determined by its id. */
  lemma ModesDistinct()
    ensures forall i, j :: 0 <= i < j < |Modes| ==> Modes[i].id != Modes[j].id
  {
  }

  /** Diamonds a run earns: the score times the power's multiplier, rounded, capped at the power's cap. */
  function DiamondsEarned(score: int, p: Power): (earned: int)
    ensures earned <= p.cap && earned <= Round(score as real * p.mult)
    ensures earned == p.cap || earned == Round(score as real * p.mult)
  {
    MinInt(Round(score as real * p.mult), p.cap)
  }

  /** A run with a non-negative score earns between zero and the cap, for every power in the table. */
  lemma EarnedBounds(score: int, i: nat)
    requires score >= 0 && i < |Powers|
    ensures 0 <= DiamondsEarned(score, Powers[i]) <= Powers[i].cap
  {
    PowersTable();
    var p := Powers[i];
    assert score as real * p.mult >= 0.0;
  }

  /** A higher score never earns fewer diamonds with the same non-negative multiplier. */
  lemma EarnedMonotone(s1: int, s2: int, p: Power)
    requires s1 <= s2 && p.mult >= 0.0
    ensures DiamondsEarned(s1, p) <= DiamondsEarned(s2, p)
  {
    var lo, hi := s1 as real * p.mult, s2 as real * p.mult;
    assert hi - lo == (s2 - s1) as real * p.mult;
    assert (s2 - s1) as real * p.mult >= 0.0;
    RoundMonotone(lo, hi);
  }

  /** With the 'normal' power a run earns its score in diamonds, up to 100. */
  lemma NormalEarned(score: int)
    ensures DiamondsEarned(score, Powers[NormalIdx]) == MinInt(score, 100)
  {
    RoundInteger(score);
  }

  /** The diamonds `calls` successive `endGame` calls credit when each credits `earned`. */
  function Credits(calls: nat, earned: int): (total: int)
    ensures calls == 0 ==> total == 0
    ensures earned >= 0 ==> total >= 0
    ensures earned <= 0 ==> total <= 0
  {
    if calls == 0 then 0 else Credits(calls - 1, earned) + earned
  }

  /** Crediting `a` times and then `b` more times is crediting `a + b` times. */
  lemma {:induction false} CreditsAdd(a: nat, b: nat, earned: int)
    ensures Credits(a, earned) + Credits(b, earned) == Credits(a + b, earned)
  {
    if b > 0 {
      CreditsAdd(a, b - 1, earned);
    }
  }

  /** Repeated crediting is multiplication: `calls` calls credit `calls * earned` diamonds. */
  lemma {:induction false} CreditsIsProduct(calls: nat, earned: int)
    ensures Credits(calls, earned) == calls * earned
  {
    if calls > 0 {
      CreditsIsProduct(calls - 1, earned);
      assert (calls - 1) * earned + earned == calls * earned;
    }
  }
}
