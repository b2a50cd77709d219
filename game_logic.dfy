/**
 * The state of one number-guessing game: the chosen level, the inclusive
 * range of admissible guesses, the hidden number and the two attempt
 * counters.  The transitions are first given as functions on a `Snapshot`
 * of that state; the class `JogoAdivinhacao` then updates its fields in
 * place, as the game object does, and its methods are proved to perform
 * exactly those transitions.
 */
module GameLogic {
  import opened Wrappers

  // ---------------------------------------------------------------------
  // Levels and their presets
  // ---------------------------------------------------------------------

  /** The level names the lookup recognises; these are the dropdown's labels. */
  const FacilName: string := "Fácil (1-10)"
  const MedioName: string := "Médio (1-30)"
  const DificilName: string := "Difícil (1-50)"

  /** The four presets; `MuitoDificil` is the fall-through of the lookup. */
  datatype Level = Facil | Medio | Dificil | MuitoDificil

  /** How many attempts the player may choose, and the slider's step count. */
  datatype AttemptBounds = AttemptBounds(minTentativas: int, maxTentativas: int, divisions: int)

  /** What a level fixes: the range of guesses and the attempt bounds. */
  datatype Preset = Preset(minimo: int, maximo: int, bounds: AttemptBounds)

  /**
   * The level a name selects.  Only the three exact labels select the easier
   * levels; every other string, and no selection at all, selects the hardest.
   */
  function ParseLevel(nivel: Option<string>): (l: Level)
    ensures l == Facil <==> nivel == Some(FacilName)
    ensures l == Medio <==> nivel == Some(MedioName)
    ensures l == Dificil <==> nivel == Some(DificilName)
    ensures l == MuitoDificil <==> nivel !in {Some(FacilName), Some(MedioName), Some(DificilName)}
  {
    if nivel == Some(FacilName) then Facil
    else if nivel == Some(MedioName) then Medio
    else if nivel == Some(DificilName) then Dificil
    else MuitoDificil
  }

  /** The label under which a level is offered; the hardest one has no label the lookup tests for. */
  function LevelName(l: Level): Option<string>
  {
    match l
    case Facil => Some(FacilName)
    case Medio => Some(MedioName)
    case Dificil => Some(DificilName)
    case MuitoDificil => Some("Muito Difícil (1-100)")
  }

  /** Position of a level in increasing difficulty. */
  function Rank(l: Level): nat
  {
    match l
    case Facil => 0
    case Medio => 1
    case Dificil => 2
    case MuitoDificil => 3
  }

  /**
   * The preset table.  Every range starts at 1 and is non-empty, every
   * attempt budget starts at 1 and never exceeds the size of the range,
   * and the slider has one division per step between the attempt bounds.
   */
  function PresetOf(l: Level): (p: Preset)
    ensures p.minimo == 1 && p.minimo < p.maximo
    ensures p.bounds.minTentativas == 1 && p.bounds.minTentativas < p.bounds.maxTentativas
    ensures p.bounds.maxTentativas <= p.maximo - p.minimo + 1
    ensures p.bounds.divisions == p.bounds.maxTentativas - p.bounds.minTentativas
  {
    match l
    case Facil => Preset(1, 10, AttemptBounds(1, 4, 3))
    case Medio => Preset(1, 30, AttemptBounds(1, 6, 5))
    case Dificil => Preset(1, 50, AttemptBounds(1, 8, 7))
    case MuitoDificil => Preset(1, 100, AttemptBounds(1, 10, 9))
  }

  /** Each label selects its own level. */
  lemma ParseLevelName(l: Level)
    ensures ParseLevel(LevelName(l)) == l
  {
  }

  /** The four presets, value by value. */
  lemma PresetTable()
    ensures PresetOf(Facil) == Preset(1, 10, AttemptBounds(1, 4, 3))
    ensures PresetOf(Medio) == Preset(1, 30, AttemptBounds(1, 6, 5))
    ensures PresetOf(Dificil) == Preset(1, 50, AttemptBounds(1, 8, 7))
    ensures PresetOf(MuitoDificil) == Preset(1, 100, AttemptBounds(1, 10, 9))
  {
  }

  /** A harder level has a strictly wider range and a strictly larger attempt budget. */
  lemma HarderLevelsWiden(a: Level, b: Level)
    requires Rank(a) < Rank(b)
    ensures PresetOf(a).maximo < PresetOf(b).maximo
    ensures PresetOf(a).bounds.maxTentativas < PresetOf(b).bounds.maxTentativas
  {
  }

  // ---------------------------------------------------------------------
  // The game state and its results
  // ---------------------------------------------------------------------

  /** The six fields of the game object, as one value. */
  datatype Snapshot = Snapshot(
    nivel: Option<string>,
    minimo: int,
    maximo: int,
    numeroCerto: Option<int>,
    tentativasTotais: int,
    tentativasRestantes: int)

  /** The state of a freshly created game: no level, range 1..10, no hidden number, no attempts. */
  const Initial: Snapshot := Snapshot(None, 1, 10, None, 0, 0)

  /** The range is non-empty and starts at 1. */
  predicate RangeOk(s: Snapshot)
  {
    s.minimo == 1 && s.minimo <= s.maximo
  }

  /** The remaining attempts lie between 0 and the round's total. */
  predicate CountersOk(s: Snapshot)
  {
    0 <= s.tentativasRestantes <= s.tentativasTotais
  }

  /** The hidden number, when there is one, lies in the current range. */
  predicate TargetOk(s: Snapshot)
  {
    s.numeroCerto.Some? ==> s.minimo <= s.numeroCerto.value <= s.maximo
  }

  /** Whether a guess is admissible at all, i.e. lies in the inclusive range. */
  predicate InRange(s: Snapshot, palpite: int)
  {
    s.minimo <= palpite <= s.maximo
  }

  /** What a started round reports: the hidden number, the budget and the range. */
  datatype RoundInfo = RoundInfo(numeroCerto: int, tentativas: int, minimo: int, maximo: int)

  /** The semantic colour tag of a feedback message. */
  datatype Color = Amber400 | Green300 | Red300

  /** The hint given after a wrong guess. */
  datatype Direction = Higher | Lower

  /** The message shown to the player, without its wording. */
  datatype Message =
    | RangeReminder(minimo: int, maximo: int)
    | WonIn(tentativas: int)
    | Hint(dica: Direction)
    | Reveal(numero: int)

  /**
   * The result of evaluating one guess: not counted (outside the range),
   * won (with the attempt number), or missed (with a hint, the remaining
   * attempts and, once the attempts are used up, the hidden number).
   */
  datatype Feedback =
    | NotCounted(minimo: int, maximo: int)
    | Won(tentativas: int, restantes: int)
    | Missed(dica: Direction, restantes: int, numeroCerto: Option<int>)
  {
    /** The guess counted against the budget. */
    predicate Valido() { !NotCounted? }

    /** The round is over, so the caller disables input. */
    predicate JogoAcabou() { Won? || (Missed? && numeroCerto.Some?) }

    function Cor(): Color
    {
      match this
      case NotCounted(_, _) => Amber400
      case Won(_, _) => Green300
      case Missed(_, _, _) => Red300
    }

    /** Once the attempts are used up the hint is replaced by the hidden number. */
    function Mensagem(): Message
    {
      match this
      case NotCounted(lo, hi) => RangeReminder(lo, hi)
      case Won(n, _) => WonIn(n)
      case Missed(d, _, None) => Hint(d)
      case Missed(_, _, Some(v)) => Reveal(v)
    }
  }

  // ---------------------------------------------------------------------
  // The three transitions
  // ---------------------------------------------------------------------

  /**
   * Choosing a level: remembers the name, sets the range of the level it
   * selects and returns that level's attempt bounds.  The hidden number and
   * the counters are left as they were.
   */
  function Configure(s: Snapshot, nivel: Option<string>): (r: (Snapshot, AttemptBounds))
    ensures RangeOk(r.0) && r.0.nivel == nivel
    ensures r.0.maximo == PresetOf(ParseLevel(nivel)).maximo && r.1 == PresetOf(ParseLevel(nivel)).bounds
    ensures r.1.divisions == r.1.maxTentativas - r.1.minTentativas
    ensures r.0.numeroCerto == s.numeroCerto
    ensures r.0.tentativasTotais == s.tentativasTotais && r.0.tentativasRestantes == s.tentativasRestantes
  {
    var p := PresetOf(ParseLevel(nivel));
    (s.(nivel := nivel, minimo := p.minimo, maximo := p.maximo), p.bounds)
  }

  /**
   * Starting a round with `n` attempts and hidden number `alvo` (drawn by
   * the caller from the range): both counters become `n`, and the report
   * carries the number, `n` and the range.  The level and range are kept.
   */
  function StartRound(s: Snapshot, n: int, alvo: int): (r: (Snapshot, RoundInfo))
    requires s.minimo <= alvo <= s.maximo
    ensures r.0.numeroCerto == Some(alvo) && r.1.numeroCerto == alvo && TargetOk(r.0)
    ensures r.0.tentativasTotais == n && r.0.tentativasRestantes == n
    ensures r.0.nivel == s.nivel && r.0.minimo == s.minimo && r.0.maximo == s.maximo
    ensures r.1 == RoundInfo(r.0.numeroCerto.value, n, s.minimo, s.maximo)
    ensures n >= 0 ==> CountersOk(r.0)
  {
    (s.(numeroCerto := Some(alvo), tentativasTotais := n, tentativasRestantes := n),
     RoundInfo(alvo, n, s.minimo, s.maximo))
  }

  /**
   * Evaluating a guess.  A guess outside the range changes nothing and is
   * not counted.  A guess inside the range uses exactly one attempt and
   * nothing else; it wins when it is the hidden number, reporting how many
   * attempts the round has used, and otherwise hints in the direction of
   * the hidden number and ends the round, revealing the number, exactly
   * when no attempts remain.
   */
  function Guess(s: Snapshot, palpite: int): (r: (Snapshot, Feedback))
    requires InRange(s, palpite) ==> s.numeroCerto.Some?
    ensures r.1.Valido() <==> InRange(s, palpite)
    ensures !InRange(s, palpite) ==> r.0 == s && r.1 == NotCounted(s.minimo, s.maximo)
    ensures InRange(s, palpite) ==> r.0 == s.(tentativasRestantes := s.tentativasRestantes - 1)
    ensures r.1.Won? <==> InRange(s, palpite) && palpite == s.numeroCerto.value
    ensures r.1.Won? ==> r.1.tentativas == r.0.tentativasTotais - r.0.tentativasRestantes
    ensures r.1.Valido() ==> r.1.restantes == r.0.tentativasRestantes
    ensures r.1.Missed? ==> (r.1.dica == Higher <==> palpite < s.numeroCerto.value)
    ensures r.1.Missed? ==> (r.1.JogoAcabou() <==> r.0.tentativasRestantes == 0)
    ensures r.1.Missed? && r.1.JogoAcabou() ==> r.1.numeroCerto == s.numeroCerto
    ensures r.1.Cor() == (if r.1.Won? then Green300 else if r.1.Valido() then Red300 else Amber400)
  {
    if palpite < s.minimo || palpite > s.maximo then
      (s, NotCounted(s.minimo, s.maximo))
    else
      var t := s.(tentativasRestantes := s.tentativasRestantes - 1);
      var alvo := s.numeroCerto.value;
      if palpite == alvo then
        (t, Won(t.tentativasTotais - t.tentativasRestantes, t.tentativasRestantes))
      else
        var dica := if palpite < alvo then Higher else Lower;
        (t, Missed(dica, t.tentativasRestantes, if t.tentativasRestantes == 0 then Some(alvo) else None))
  }

  // ---------------------------------------------------------------------
  // Invariants of the transitions
  // ---------------------------------------------------------------------

  /** A new game satisfies all three invariants. */
  lemma InitialOk()
    ensures RangeOk(Initial) && CountersOk(Initial) && TargetOk(Initial)
  {
  }

  /**
   * Evaluating a guess keeps the range, keeps the hidden number in it, and
   * keeps the counters between 0 and the total provided the guess is made
   * while attempts remain.
   */
  lemma GuessKeepsInvariants(s: Snapshot, palpite: int)
    requires InRange(s, palpite) ==> s.numeroCerto.Some?
    requires RangeOk(s) && TargetOk(s) && CountersOk(s)
    requires s.tentativasRestantes > 0
    ensures RangeOk(Guess(s, palpite).0) && TargetOk(Guess(s, palpite).0)
    ensures CountersOk(Guess(s, palpite).0)
  {
  }

  /**
   * Without that proviso the counters are not kept: a wrong guess in range
   * made with no attempts left leaves -1 attempts and does not end the game.
   */
  lemma GuessAfterLossBreaksCounters(s: Snapshot, palpite: int)
    requires InRange(s, palpite) && s.numeroCerto.Some? && s.numeroCerto.value != palpite
    requires s.tentativasRestantes == 0
    ensures Guess(s, palpite).0.tentativasRestantes == -1 && !CountersOk(Guess(s, palpite).0)
    ensures Guess(s, palpite).1.Missed? && !Guess(s, palpite).1.JogoAcabou()
  {
  }

  /**
   * A guess that hits the hidden number with no attempts left still wins,
   * ending the game, but reports one attempt more than the round allowed.
   */
  lemma HitAfterLossWinsLate(s: Snapshot, palpite: int)
    requires InRange(s, palpite) && s.numeroCerto == Some(palpite)
    requires s.tentativasRestantes == 0
    ensures Guess(s, palpite).1 == Won(s.tentativasTotais + 1, -1) && Guess(s, palpite).1.JogoAcabou()
    ensures !CountersOk(Guess(s, palpite).0)
  {
  }

  /**
   * Choosing a level keeps the hidden number of the previous round.  A
   * hidden number from 1 up stays in the new range exactly when it does not
   * exceed the new maximum; one above it is kept all the same, and then no
   * counted guess can win.
   */
  lemma ConfigureKeepsStaleTarget(s: Snapshot, nivel: Option<string>)
    requires s.numeroCerto.Some? && s.numeroCerto.value >= 1
    ensures var c := Configure(s, nivel).0;
            c.numeroCerto == s.numeroCerto &&
            (TargetOk(c) <==> s.numeroCerto.value <= PresetOf(ParseLevel(nivel)).maximo)
    ensures var c := Configure(s, nivel).0;
            s.numeroCerto.value > PresetOf(ParseLevel(nivel)).maximo ==>
              forall g :: InRange(c, g) ==> !Guess(c, g).1.Won?
  {
  }

  // ---------------------------------------------------------------------
  // The game object
  // ---------------------------------------------------------------------

  class JogoAdivinhacao {
    var nivel: Option<string>
    var minimo: int
    var maximo: int
    var numeroCerto: Option<int>
    var tentativasTotais: int
    var tentativasRestantes: int

    /** The fields as one value. */
    function State(): Snapshot
      reads this
    {
      Snapshot(nivel, minimo, maximo, numeroCerto, tentativasTotais, tentativasRestantes)
    }

    /** The object invariant: the range is non-empty and starts at 1. */
    ghost predicate Valid()
      reads this
    {
      RangeOk(State())
    }

    constructor ()
      ensures Valid() && State() == Initial
      ensures CountersOk(State()) && TargetOk(State())
    {
      numeroCerto := None;
      tentativasRestantes := 0;
      tentativasTotais := 0;
      nivel := None;
      minimo := 1;
      maximo := 10;
    }

    /** Chooses a level by name; an unrecognised name or none selects the hardest preset. */
    method DefinirNivel(nivel: Option<string>) returns (config: AttemptBounds)
      modifies this
      ensures Valid()
      ensures (State(), config) == Configure(old(State()), nivel)
      ensures this.nivel == nivel && minimo == 1
      ensures config.divisions == config.maxTentativas - config.minTentativas
      ensures numeroCerto == old(numeroCerto)
      ensures tentativasTotais == old(tentativasTotais) && tentativasRestantes == old(tentativasRestantes)
    {
      this.nivel := nivel;
      if nivel == Some(FacilName) {
        minimo, maximo := 1, 10;
        return AttemptBounds(1, 4, 3);
      } else if nivel == Some(MedioName) {
        minimo, maximo := 1, 30;
        return AttemptBounds(1, 6, 5);
      } else if nivel == Some(DificilName) {
        minimo, maximo := 1, 50;
        return AttemptBounds(1, 8, 7);
      } else {
        minimo, maximo := 1, 100;
        return AttemptBounds(1, 10, 9);
      }
    }

    /**
     * Starts a round with the chosen number of attempts.  The hidden number
     * is some value of the range; which one is left open.
     */
    method IniciarJogo(tentativasSelecionadas: int) returns (info: RoundInfo)
      requires Valid()
      modifies this
      ensures Valid()
      ensures numeroCerto.Some? && minimo <= numeroCerto.value <= maximo
      ensures nivel == old(nivel) && minimo == old(minimo) && maximo == old(maximo)
      ensures (State(), info) == StartRound(old(State()), tentativasSelecionadas, numeroCerto.value)
      ensures tentativasTotais == tentativasSelecionadas && tentativasRestantes == tentativasSelecionadas
      ensures info == RoundInfo(numeroCerto.value, tentativasSelecionadas, minimo, maximo)
    {
      var alvo :| minimo <= alvo <= maximo;
      numeroCerto := Some(alvo);
      tentativasTotais := tentativasSelecionadas;
      tentativasRestantes := tentativasTotais;
      info := RoundInfo(alvo, tentativasTotais, minimo, maximo);
    }

    /** Evaluates a guess against the hidden number, using an attempt only when the guess is in range. */
    method VerificarPalpite(palpite: int) returns (fb: Feedback)
      requires minimo <= palpite <= maximo ==> numeroCerto.Some?
      modifies this
      ensures (State(), fb) == Guess(old(State()), palpite)
      ensures fb.Valido() <==> old(minimo) <= palpite <= old(maximo)
      ensures tentativasRestantes == old(tentativasRestantes) - (if fb.Valido() then 1 else 0)
      ensures nivel == old(nivel) && minimo == old(minimo) && maximo == old(maximo)
      ensures numeroCerto == old(numeroCerto) && tentativasTotais == old(tentativasTotais)
      ensures old(Valid()) ==> Valid()
      ensures old(CountersOk(State())) && old(tentativasRestantes) > 0 ==> CountersOk(State())
    {
      if palpite < minimo || palpite > maximo {
        return NotCounted(minimo, maximo);
      }
      tentativasRestantes := tentativasRestantes - 1;
      var alvo := numeroCerto.value;
      if palpite == alvo {
        return Won(tentativasTotais - tentativasRestantes, tentativasRestantes);
      }
      var dica := if palpite < alvo then Higher else Lower;
      fb := Missed(dica, tentativasRestantes, if tentativasRestantes == 0 then Some(alvo) else None);
    }
  }
}
