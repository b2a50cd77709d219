/**
 * A round as the player experiences it: the game object receives one guess
 * after another, each evaluated by `Guess` on the state the previous one
 * left.  The lemmas here relate a whole sequence of guesses to the counters
 * and to the feedback of each guess.
 */
module Session {
  import opened Wrappers
  import opened GameLogic

  /** How many of the guesses lie in the range `lo..hi`, i.e. are counted. */
  function ValidCount(lo: int, hi: int, gs: seq<int>): (k: nat)
    ensures k <= |gs|
    decreases |gs|
  {
    if gs == [] then 0
    else ValidCount(lo, hi, gs[..|gs| - 1]) + (if lo <= gs[|gs| - 1] <= hi then 1 else 0)
  }

  /**
   * Evaluates `gs` in order from `s`, returning the final state and one
   * feedback per guess.  Only the remaining attempts change, and they drop
   * by exactly the number of guesses that were in range.
   */
  function Play(s: Snapshot, gs: seq<int>): (r: (Snapshot, seq<Feedback>))
    requires s.numeroCerto.Some?
    ensures |r.1| == |gs|
    ensures r.0 == s.(tentativasRestantes := s.tentativasRestantes - ValidCount(s.minimo, s.maximo, gs))
    decreases |gs|
  {
    if gs == [] then (s, [])
    else
      var (t, fs) := Play(s, gs[..|gs| - 1]);
      var (u, f) := Guess(t, gs[|gs| - 1]);
      (u, fs + [f])
  }

  /** The i-th feedback of a session is that guess evaluated on the state the first i guesses left. */
  lemma {:induction false} PlayStep(s: Snapshot, gs: seq<int>, i: nat)
    requires s.numeroCerto.Some?
    requires i < |gs|
    ensures Play(s, gs).1[i] == Guess(Play(s, gs[..i]).0, gs[i]).1
    decreases |gs|
  {
    var init := gs[..|gs| - 1];
    if i < |gs| - 1 {
      PlayStep(s, init, i);
      assert init[..i] == gs[..i];
    } else {
      assert init == gs[..i];
    }
  }

  /** When every guess is in range, every guess is counted. */
  lemma {:induction false} AllInRangeCount(lo: int, hi: int, gs: seq<int>)
    requires forall j :: 0 <= j < |gs| ==> lo <= gs[j] <= hi
    ensures ValidCount(lo, hi, gs) == |gs|
    decreases |gs|
  {
    if gs != [] {
      AllInRangeCount(lo, hi, gs[..|gs| - 1]);
    }
  }

  /** Appending one guess adds one to the count exactly when it is in range. */
  lemma ValidCountSnoc(lo: int, hi: int, gs: seq<int>, i: nat)
    requires i < |gs|
    ensures ValidCount(lo, hi, gs[..i + 1]) == ValidCount(lo, hi, gs[..i]) + (if lo <= gs[i] <= hi then 1 else 0)
  {
    assert gs[..i + 1][..i] == gs[..i];
  }

  /**
   * A session keeps the invariants of the game as long as no more guesses
   * are counted than attempts remained at its start.
   */
  lemma PlayKeepsInvariants(s: Snapshot, gs: seq<int>)
    requires s.numeroCerto.Some?
    requires RangeOk(s) && TargetOk(s) && CountersOk(s)
    requires ValidCount(s.minimo, s.maximo, gs) <= s.tentativasRestantes
    ensures RangeOk(Play(s, gs).0) && TargetOk(Play(s, gs).0) && CountersOk(Play(s, gs).0)
  {
  }

  /**
   * In a round started with `n` attempts, a winning guess reports as its
   * attempt number the number of counted guesses up to and including it;
   * guesses outside the range in between do not count.
   */
  lemma WinAttemptNumber(s: Snapshot, n: int, alvo: int, gs: seq<int>, i: nat)
    requires s.minimo <= alvo <= s.maximo
    requires i < |gs|
    ensures var s0 := StartRound(s, n, alvo).0;
            Play(s0, gs).1[i].Won? ==>
              Play(s0, gs).1[i].tentativas == ValidCount(s.minimo, s.maximo, gs[..i + 1])
  {
    var s0 := StartRound(s, n, alvo).0;
    PlayStep(s0, gs, i);
    ValidCountSnoc(s.minimo, s.maximo, gs, i);
  }

  /** Guessing the hidden number with the first counted guess reports a win at attempt 1. */
  lemma FirstCountedGuessWins(s: Snapshot, n: int, alvo: int, gs: seq<int>)
    requires s.minimo <= alvo <= s.maximo
    requires forall j :: 0 <= j < |gs| ==> !(s.minimo <= gs[j] <= s.maximo)
    ensures var s0 := StartRound(s, n, alvo).0;
            Play(s0, gs + [alvo]).1[|gs|] == Won(1, n - 1)
  {
    var s0 := StartRound(s, n, alvo).0;
    var all := gs + [alvo];
    PlayStep(s0, all, |gs|);
    assert all[..|gs|] == gs;
    NoneInRangeCount(s.minimo, s.maximo, gs);
  }

  /** When no guess is in range, none is counted. */
  lemma {:induction false} NoneInRangeCount(lo: int, hi: int, gs: seq<int>)
    requires forall j :: 0 <= j < |gs| ==> !(lo <= gs[j] <= hi)
    ensures ValidCount(lo, hi, gs) == 0
    decreases |gs|
  {
    if gs != [] {
      NoneInRangeCount(lo, hi, gs[..|gs| - 1]);
    }
  }

  /**
   * In a round started with `n` attempts where every guess is in range and
   * wrong, the i-th guess leaves `n - (i + 1)` attempts, hints, and ends the
   * round by revealing the hidden number exactly when it is the n-th.
   */
  lemma BudgetExhaustion(s: Snapshot, n: int, alvo: int, gs: seq<int>, i: nat)
    requires s.minimo <= alvo <= s.maximo
    requires forall j :: 0 <= j < |gs| ==> s.minimo <= gs[j] <= s.maximo && gs[j] != alvo
    requires i < |gs|
    ensures var f := Play(StartRound(s, n, alvo).0, gs).1[i];
            f.Missed? && f.restantes == n - (i + 1) &&
            (f.JogoAcabou() <==> i + 1 == n) &&
            (f.JogoAcabou() ==> f.numeroCerto == Some(alvo) && f.Mensagem() == Reveal(alvo))
  {
    var s0 := StartRound(s, n, alvo).0;
    PlayStep(s0, gs, i);
    AllInRangeCount(s.minimo, s.maximo, gs[..i]);
  }

  /** Easy level, 3 attempts, hidden number 7: guesses 3, 9, 7 give higher, lower, won at attempt 3. */
  lemma ScenarioWin()
    ensures var s0 := StartRound(Configure(Initial, Some(FacilName)).0, 3, 7).0;
            Play(s0, [3, 9, 7]).1 == [Missed(Higher, 2, None), Missed(Lower, 1, None), Won(3, 0)]
  {
  }

  /** Same round, guesses 1, 2, 3: the third uses up the attempts and reveals 7. */
  lemma ScenarioLoss()
    ensures var s0 := StartRound(Configure(Initial, Some(FacilName)).0, 3, 7).0;
            var fs := Play(s0, [1, 2, 3]).1;
            fs == [Missed(Higher, 2, None), Missed(Higher, 1, None), Missed(Higher, 0, Some(7))] &&
            fs[2].JogoAcabou() && fs[2].Mensagem() == Reveal(7)
  {
  }
}
