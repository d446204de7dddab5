/** Runs of the response parser, byte by byte. */
module HttpRuns {
  import opened HttpClientParser
  import opened HttpWords

  // ----- Runs of the machine -----

  /** The machine before a byte: under way, or stopped after `at` bytes. */
  datatype Moment = Going(parser: Parser) | Over(parser: Parser, at: nat)

  function Move(m: Moment, buffer: string, pos: nat): Moment
    requires pos < |buffer|
  {
    match m
    case Over(_, _) => m
    case Going(p) =>
      match Edges(p.cs, buffer[pos])
      case Fail => Over(p.(cs := ERROR), pos)
      case To(state, act) =>
        var p' := Apply(p, act, buffer, pos).(cs := state);
        if Stops(act) then Over(p', pos + 1) else Going(p')
  }

  /** What comes of a moment by `n` moves, all the moments on the way. */
  function Chain(move: (Moment, nat) -> Moment, m: Moment, pos: nat, n: nat): (t: seq<Moment>)
    ensures |t| == n + 1 && t[0] == m
    decreases n
  {
    if n == 0 then [m] else [m] + Chain(move, move(m, pos), pos + 1, n - 1)
  }

  lemma {:induction false} ChainMoves(move: (Moment, nat) -> Moment, m: Moment, pos: nat, n: nat, k: nat)
    requires k < n
    ensures Chain(move, m, pos, n)[k + 1] == move(Chain(move, m, pos, n)[k], pos + k)
    decreases k
  {
    if k > 0 {
      ChainMoves(move, move(m, pos), pos + 1, n - 1, k - 1);
    }
  }

  function Mover(buffer: string): (Moment, nat) -> Moment {
    (m: Moment, pos: nat) => if pos < |buffer| then Move(m, buffer, pos) else m
  }

  function Outcome(m: Moment, length: nat): (Parser, nat) {
    match m
    case Going(p) => (p, length)
    case Over(p, at) => (p, at)
  }

  function Runner(buffer: string): (Parser, nat) -> (Parser, nat) {
    (p: Parser, pos: nat) => if pos <= |buffer| then RunFrom(p, buffer, pos) else (p, pos)
  }

  /** The rest of a run from a moment on. */
  function Rest(run: (Parser, nat) -> (Parser, nat), m: Moment, pos: nat): (Parser, nat) {
    match m
    case Going(p) => run(p, pos)
    case Over(p, at) => (p, at)
  }

  /** `run` does what `move` does, byte by byte. */
  ghost predicate Repeats(run: (Parser, nat) -> (Parser, nat), move: (Moment, nat) -> Moment, length: nat) {
    && (forall p: Parser, pos: nat {:trigger move(Going(p), pos)} :: pos < length ==>
         run(p, pos) == Rest(run, move(Going(p), pos), pos + 1))
    && (forall m: Moment, pos: nat {:trigger move(m, pos)} :: m.Over? ==> move(m, pos) == m)
    && (forall p: Parser :: run(p, length) == (p, length))
  }

  lemma RunnerRepeats(buffer: string)
    ensures Repeats(Runner(buffer), Mover(buffer), |buffer|)
  {
  }

  /** The last moment tells how the run ends. */
  lemma {:induction false} RunIsLast(m: Moment, pos: nat, length: nat, run: (Parser, nat) -> (Parser, nat),
      move: (Moment, nat) -> Moment)
    requires pos <= length && Repeats(run, move, length)
    ensures Outcome(Chain(move, m, pos, length - pos)[length - pos], length) == Rest(run, m, pos)
    decreases length - pos
  {
    if pos < length {
      RunIsLast(move(m, pos), pos + 1, length, run, move);
    }
  }

  predicate Look(i: nat) { true }

  /** `t` holds every moment of a run over the buffer; a step is looked at only where `Look` names it. */
  ghost predicate Shows(t: seq<Moment>, buffer: string) {
    && |t| == |buffer| + 1
    && forall i: nat {:trigger Look(i)} :: Look(i) && i < |buffer| ==> t[i + 1] == Move(t[i], buffer, i)
  }

  lemma ChainShows(t: seq<Moment>, m: Moment, buffer: string)
    requires t == Chain(Mover(buffer), m, 0, |buffer|)
    ensures Shows(t, buffer)
  {
    forall i: nat | Look(i) && i < |buffer| ensures t[i + 1] == Move(t[i], buffer, i) {
      ChainMoves(Mover(buffer), m, 0, |buffer|, i);
    }
  }

  lemma RunShown(p: Parser, buffer: string) returns (t: seq<Moment>)
    ensures Shows(t, buffer) && t[0] == Going(p)
    ensures t[|buffer|].Over? ==> RunFrom(p, buffer, 0) == (t[|buffer|].parser, t[|buffer|].at)
  {
    t := Chain(Mover(buffer), Going(p), 0, |buffer|);
    ChainShows(t, Going(p), buffer);
    RunnerRepeats(buffer);
    RunIsLast(Going(p), 0, |buffer|, Runner(buffer), Mover(buffer));
  }

  /** One step that does not stop the machine. */
  lemma One(t: seq<Moment>, buffer: string, pos: nat, to: nat, act: Act)
    requires Shows(t, buffer) && pos < |buffer| && t[pos].Going?
    requires Edges(t[pos].parser.cs, buffer[pos]) == To(to, act) && !Stops(act)
    ensures t[pos + 1] == Going(Apply(t[pos].parser, act, buffer, pos).(cs := to))
  {
    assert Look(pos);
  }

  lemma Stop(t: seq<Moment>, buffer: string, pos: nat, to: nat, act: Act)
    requires Shows(t, buffer) && pos < |buffer| && t[pos].Going?
    requires Edges(t[pos].parser.cs, buffer[pos]) == To(to, act) && Stops(act)
    ensures t[pos + 1] == Over(Apply(t[pos].parser, act, buffer, pos).(cs := to), pos + 1)
  {
    assert Look(pos);
  }

  lemma {:induction false} OverStays(t: seq<Moment>, buffer: string, pos: nat)
    requires Shows(t, buffer) && pos <= |buffer| && t[pos].Over?
    ensures t[|buffer|] == t[pos]
    decreases |buffer| - pos
  {
    if pos < |buffer| {
      assert Look(pos);
      OverStays(t, buffer, pos + 1);
    }
  }

  lemma {:induction false} SkipRun(t: seq<Moment>, buffer: string, pos: nat, text: string, to: nat)
    requires Shows(t, buffer) && At(buffer, pos, text) && t[pos].Going?
    requires Skips(t[pos].parser.cs, text) == To(to, Skip)
    ensures t[pos + |text|] == Going(t[pos].parser.(cs := to))
    decreases |text|
  {
    if text != "" {
      AtFirst(buffer, pos, text);
      var next := SkipFirst(t[pos].parser.cs, text, to);
      One(t, buffer, pos, next, Skip);
      SkipRun(t, buffer, pos + 1, text[1..], to);
    }
  }

  /** A text is marked at its first character and then read through. */
  lemma Scan(t: seq<Moment>, buffer: string, pos: nat, text: string, stay: nat)
    requires Shows(t, buffer) && At(buffer, pos, text) && text != "" && t[pos].Going?
    requires Edges(t[pos].parser.cs, text[0]) == To(stay, Mark)
    requires forall i :: 0 < i < |text| ==> Edges(stay, text[i]) == To(stay, Skip)
    ensures t[pos + |text|] == Going(t[pos].parser.(cs := stay, mark := pos))
  {
    AtFirst(buffer, pos, text);
    One(t, buffer, pos, stay, Mark);
    SkipsStay(stay, text[1..]);
    SkipRun(t, buffer, pos + 1, text[1..], stay);
  }
}
