/** The table-driven engine (src/utils/parser.c) and the case-insensitive comparison it is generated for
    (src/utils/parser_utils.c). */
module Automaton {
  import opened Basics

  /** The `when` that every byte matches. */
  const ANY := 512

  /** What an action reports, and the byte it was run on. */
  datatype Verdict = MayEq | Eq | Neq

  datatype Event = Event(verdict: Verdict, data: byte)

  /** An action stores its verdict with the current byte; calloc leaves none. */
  datatype Transition = Transition(when: nat, dest: nat, act1: Option<Verdict>, act2: Option<Verdict>)

  const BLANK := Transition(0, 0, None, None)

  /** The test `a & b`. */
  predicate SharesBit(a: nat, b: nat) {
    a != 0 && b != 0 && ((a % 2 == 1 && b % 2 == 1) || SharesBit(a / 2, b / 2))
  }

  predicate Matches(t: Transition, c: byte, class_: nat) {
    if t.when <= 0xFF then c == t.when
    else if t.when == ANY then true
    else SharesBit(class_, t.when)
  }

  /** The first transition of a row that takes `c`, or the length of the row. */
  ghost function FirstMatch(row: seq<Transition>, c: byte, class_: nat): (k: nat)
    ensures k <= |row| && (k < |row| ==> Matches(row[k], c, class_))
    ensures forall i | 0 <= i < k :: !Matches(row[i], c, class_)
  {
    if row == [] || Matches(row[0], c, class_) then 0 else 1 + FirstMatch(row[1..], c, class_)
  }

  lemma {:induction false} FirstMatchIs(row: seq<Transition>, c: byte, class_: nat, k: nat)
    requires k <= |row| && (k < |row| ==> Matches(row[k], c, class_))
    requires forall i | 0 <= i < k :: !Matches(row[i], c, class_)
    ensures FirstMatch(row, c, class_) == k
  {
  }

  // ---------------------------------------------------------------- definitions

  class Definition {
    const startState: nat
    const transitions: array<Transition>
    /** Offsets of the rows in `transitions`, and their lengths. */
    const states: array<nat>
    const statesN: array<nat>

    constructor (startState: nat, transitions: array<Transition>, states: array<nat>, statesN: array<nat>)
      ensures this.startState == startState && this.transitions == transitions
      ensures this.states == states && this.statesN == statesN
    {
      this.startState, this.transitions, this.states, this.statesN := startState, transitions, states, statesN;
    }

    ghost predicate Shaped()
      reads transitions, states, statesN
    {
      && states.Length == statesN.Length && startState < states.Length
      && forall q | 0 <= q < states.Length :: states[q] + statesN[q] <= transitions.Length
    }

    ghost function Row(q: nat): seq<Transition>
      requires Shaped() && q < states.Length
      reads transitions, states, statesN
    {
      transitions[states[q]..states[q] + statesN[q]]
    }

    /** Every row leads to a state, and every action that can run is there. */
    ghost predicate Valid()
      reads transitions, states, statesN
    {
      && Shaped()
      && forall q | 0 <= q < states.Length ::
           forall k | 0 <= k < |Row(q)| :: Row(q)[k].dest < states.Length && Row(q)[k].act1.Some?
    }
  }

  // ---------------------------------------------------------------- the engine

  class Parser {
    /** 256 character classes. */
    const classes: seq<nat>
    const def: Definition
    var state: nat
    var e1: Event
    var e2: Event
    var hasSecond: bool

    ghost predicate Valid()
      reads this, def.transitions, def.states, def.statesN
    {
      |classes| == 256 && def.Valid() && state < def.states.Length
    }

    /** parser_init */
    constructor (classes: seq<nat>, def: Definition)
      requires |classes| == 256 && def.Valid()
      ensures Valid() && this.def == def && this.classes == classes && state == def.startState
    {
      this.classes, this.def, state := classes, def, def.startState;
      e1, e2, hasSecond := Event(MayEq, 0), Event(MayEq, 0), false;
    }

    /** parser_reset */
    method Reset()
      requires Valid()
      modifies `state
      ensures Valid() && state == def.startState
    {
      state := def.startState;
    }

    /** parser_feed: take the first matching transition of the current row; with none, stay where it is. */
    method Feed(c: byte) returns (event: Event)
      requires Valid()
      modifies this
      ensures Valid() && event == e1
      ensures var row := old(def.Row(state)); var k := FirstMatch(row, c, classes[c]);
              if k < |row| then
                && state == row[k].dest && e1 == Event(row[k].act1.value, c)
                && hasSecond == row[k].act2.Some? && (hasSecond ==> e2 == Event(row[k].act2.value, c))
              else state == old(state) && e1 == old(e1) && !hasSecond
    {
      hide Matches, FirstMatch;
      hasSecond := false;
      var i := Find(c);
      if i < def.statesN[state] {
        var t := def.transitions[def.states[state] + i];
        assert t == def.Row(state)[i];
        e1 := Event(t.act1.value, c);
        if t.act2.Some? {
          hasSecond, e2 := true, Event(t.act2.value, c);
        }
        state := t.dest;
      }
      return e1;
    }

    /** The loop of parser_feed: the first transition of the current row that matches. */
    method Find(c: byte) returns (i: nat)
      requires Valid()
      ensures i == FirstMatch(def.Row(state), c, classes[c])
    {
      var base, n := def.states[state], def.statesN[state];
      ghost var row := def.Row(state);
      i := 0;
      while i < n && !Matches(def.transitions[base + i], c, classes[c])
        invariant 0 <= i <= n
        invariant forall k | 0 <= k < i :: !Matches(row[k], c, classes[c])
      {
        assert def.transitions[base + i] == row[i];
        i := i + 1;
      }
      assert i < n ==> def.transitions[base + i] == row[i];
      FirstMatchIs(row, c, classes[c], i);
    }
  }

  // ---------------------------------------------------------------- the comparison

  function Lower(c: byte): byte {
    if 65 <= c <= 90 then c + 32 else c
  }

  function Upper(c: byte): byte {
    if 97 <= c <= 122 then c - 32 else c
  }

  /** `a` and `b` are equal but for the case of letters. */
  predicate SameText(a: seq<byte>, b: seq<byte>) {
    |a| == |b| && forall i | 0 <= i < |a| :: Lower(a[i]) == Lower(b[i])
  }

  ghost predicate IsAscii(s: seq<byte>) {
    forall i | 0 <= i < |s| :: s[i] < 128
  }

  /** What comparing `input` with `pattern` should report. */
  ghost function Compared(pattern: seq<byte>, input: seq<byte>): Verdict {
    if SameText(input, pattern) then Eq
    else if |input| < |pattern| && SameText(input, pattern[..|input|]) then MayEq
    else Neq
  }

  /** The row of the generated automaton for state `q`. */
  ghost function RowFor(pattern: seq<byte>, q: nat): seq<Transition>
    requires q < |pattern| + 2
  {
    var n := |pattern|;
    var out := Transition(ANY, n + 1, Some(Neq), None);
    if q < n then
      var verdict := if q + 1 == n then Eq else MayEq;
      [Transition(Lower(pattern[q]), q + 1, Some(verdict), None), Transition(Upper(pattern[q]), q + 1, Some(verdict), None), out]
    else [out]
  }

  /** The definition is the automaton of `pattern`. */
  ghost predicate Compares(def: Definition, pattern: seq<byte>)
    reads def.transitions, def.states, def.statesN
  {
    && def.Valid() && def.startState == 0 && def.states.Length == |pattern| + 2
    && forall q | 0 <= q < |pattern| + 2 :: def.Row(q) == RowFor(pattern, q)
  }

  /** The rows of the first `k` states, one after the other. */
  ghost function Rows(pattern: seq<byte>, k: nat): (r: seq<Transition>)
    requires k <= |pattern|
    ensures |r| == 3 * k
  {
    if k == 0 then [] else Rows(pattern, k - 1) + RowFor(pattern, k - 1)
  }

  lemma {:induction false} RowInside(pattern: seq<byte>, k: nat, q: nat)
    requires q < k <= |pattern|
    ensures Rows(pattern, k)[3 * q..3 * q + 3] == RowFor(pattern, q)
  {
    if q < k - 1 {
      RowInside(pattern, k - 1, q);
      assert Rows(pattern, k)[3 * q..3 * q + 3] == Rows(pattern, k - 1)[3 * q..3 * q + 3];
    }
  }

  /** parser_utils_strcmpi, for allocations that succeed. */
  method StrCmpI(s: seq<byte>) returns (def: Definition)
    requires IsAscii(s)
    ensures fresh(def) && fresh(def.transitions) && fresh(def.states) && fresh(def.statesN)
    ensures Compares(def, s)
  {
    var n := |s|;
    var transitions := new Transition[3 * (n + 2)](_ => BLANK);
    FillRows(s, transitions);
    var states, nstates := FillIndex(n);
    def := new Definition(0, transitions, states, nstates);
    GeneratedCompares(def, s);
  }

  /** The transitions of every state. */
  method FillRows(s: seq<byte>, transitions: array<Transition>)
    requires transitions.Length == 3 * (|s| + 2)
    modifies transitions
    ensures transitions[..3 * |s|] == Rows(s, |s|)
    ensures transitions[3 * |s|] == transitions[3 * |s| + 3] == RowFor(s, |s|)[0]
  {
    var n := |s|;
    var eq, neq := n, n + 1;
    for i := 0 to n
      invariant transitions[..3 * i] == Rows(s, i)
    {
      var dest := if i + 1 == n then eq else i + 1;
      var verdict := if i + 1 == n then Eq else MayEq;
      transitions[3 * i] := Transition(Lower(s[i]), dest, Some(verdict), None);
      transitions[3 * i + 1] := Transition(Upper(s[i]), dest, Some(verdict), None);
      transitions[3 * i + 2] := Transition(ANY, neq, Some(Neq), None);
      assert transitions[..3 * (i + 1)] == transitions[..3 * i] + RowFor(s, i);
    }
    transitions[3 * n] := Transition(ANY, neq, Some(Neq), None);
    transitions[3 * (n + 1)] := Transition(ANY, neq, Some(Neq), None);
  }

  /** Where the row of each state starts, and how long it is. */
  method FillIndex(n: nat) returns (states: array<nat>, nstates: array<nat>)
    ensures fresh(states) && fresh(nstates) && states.Length == nstates.Length == n + 2
    ensures forall q | 0 <= q < n + 2 :: states[q] == 3 * q && nstates[q] == if q < n then 3 else 1
  {
    states, nstates := new nat[n + 2](_ => 0), new nat[n + 2](_ => 0);
    for i := 0 to n
      invariant forall q | 0 <= q < i :: states[q] == 3 * q && nstates[q] == 3
    {
      states[i], nstates[i] := 3 * i, 3;
    }
    states[n], nstates[n] := 3 * n, 1;
    states[n + 1], nstates[n + 1] := 3 * (n + 1), 1;
  }

  /** The arrays hold the rows of the automaton of `s`. */
  ghost predicate Generated(def: Definition, s: seq<byte>)
    reads def.transitions, def.states, def.statesN
  {
    && def.startState == 0 && def.transitions.Length == 3 * (|s| + 2)
    && def.states.Length == def.statesN.Length == |s| + 2
    && def.transitions[..3 * |s|] == Rows(s, |s|)
    && def.transitions[3 * |s|] == def.transitions[3 * |s| + 3] == RowFor(s, |s|)[0]
    && forall q | 0 <= q < |s| + 2 :: def.states[q] == 3 * q && def.statesN[q] == if q < |s| then 3 else 1
  }

  lemma GeneratedRow(def: Definition, s: seq<byte>, q: nat)
    requires Generated(def, s) && def.Shaped() && q < |s| + 2
    ensures def.Row(q) == RowFor(s, q)
    ensures forall k | 0 <= k < |RowFor(s, q)| :: RowFor(s, q)[k].dest < |s| + 2 && RowFor(s, q)[k].act1.Some?
  {
    if q < |s| {
      RowInside(s, |s|, q);
      assert def.Row(q) == def.transitions[..3 * |s|][3 * q..3 * q + 3];
    }
  }

  lemma GeneratedCompares(def: Definition, s: seq<byte>)
    requires Generated(def, s)
    ensures Compares(def, s)
  {
    hide Rows, RowFor;
    assert def.Shaped();
    forall q | 0 <= q < |s| + 2
      ensures def.Row(q) == RowFor(s, q)
      ensures forall k | 0 <= k < |def.Row(q)| :: def.Row(q)[k].dest < |s| + 2 && def.Row(q)[k].act1.Some?
    {
      GeneratedRow(def, s, q);
    }
  }

  /** The state after `fed`: how far it agrees with the pattern, or the sink. */
  ghost function StateAfter(pattern: seq<byte>, fed: seq<byte>): nat {
    if |fed| <= |pattern| && SameText(fed, pattern[..|fed|]) then |fed| else |pattern| + 1
  }

  lemma ShorterAgrees(pattern: seq<byte>, fed: seq<byte>, c: byte)
    ensures |fed| < |pattern| && SameText(fed + [c], pattern[..|fed| + 1]) ==> SameText(fed, pattern[..|fed|])
  {
    if |fed| < |pattern| && SameText(fed + [c], pattern[..|fed| + 1]) {
      forall i | 0 <= i < |fed| ensures Lower(fed[i]) == Lower(pattern[i]) {
        assert (fed + [c])[i] == fed[i];
      }
    }
  }

  /** One byte: some transition matches, it leads to the state for the longer input, and it reports what comparing
      the longer input reports. */
  lemma OneByte(pattern: seq<byte>, fed: seq<byte>, c: byte, class_: nat)
    requires IsAscii(pattern)
    ensures var row := RowFor(pattern, StateAfter(pattern, fed)); var k := FirstMatch(row, c, class_);
            && k < |row| && row[k].dest == StateAfter(pattern, fed + [c])
            && row[k].act1 == Some(Compared(pattern, fed + [c])) && row[k].act2.None?
  {
    var q := StateAfter(pattern, fed);
    var row := RowFor(pattern, q);
    var all := fed + [c];
    if q < |pattern| {
      assert forall i | 0 <= i < |fed| :: all[i] == fed[i];
      assert SameText(all, pattern[..|all|]) <==> Lower(c) == Lower(pattern[q]);
      assert Lower(c) == Lower(pattern[q]) <==> c == Lower(pattern[q]) || c == Upper(pattern[q]);
      assert |all| == |pattern| ==> pattern[..|all|] == pattern;
      var k := FirstMatch(row, c, class_);
      assert Matches(row[2], c, class_);
      if Lower(c) == Lower(pattern[q]) { assert k == 0 || k == 1; } else { assert k == 2; }
    } else {
      ShorterAgrees(pattern, fed, c);
    }
  }

  /** A parser of the automaton of `pattern` that was fed `fed`. */
  ghost predicate Fed(parser: Parser, pattern: seq<byte>, fed: seq<byte>)
    reads parser, parser.def.transitions, parser.def.states, parser.def.statesN
  {
    parser.Valid() && Compares(parser.def, pattern) && parser.state == StateAfter(pattern, fed)
  }

  method FeedOne(parser: Parser, ghost pattern: seq<byte>, ghost fed: seq<byte>, c: byte) returns (event: Event)
    requires IsAscii(pattern) && Fed(parser, pattern, fed)
    modifies parser
    ensures Fed(parser, pattern, fed + [c]) && event == Event(Compared(pattern, fed + [c]), c)
  {
    hide StateAfter, Compared, FirstMatch, RowFor;
    OneByte(pattern, fed, c, parser.classes[c]);
    event := parser.Feed(c);
  }

  /** Feeding a parser of the generated automaton byte by byte: the last event says how the whole input compares. */
  method Compare(pattern: seq<byte>, input: seq<byte>, classes: seq<nat>) returns (last: Event)
    requires IsAscii(pattern) && input != [] && |classes| == 256
    ensures last == Event(Compared(pattern, input), input[|input| - 1])
  {
    var def := StrCmpI(pattern);
    var parser := new Parser(classes, def);
    assert Fed(parser, pattern, input[..0]);
    hide Fed, Compared;
    var i := 0;
    last := Event(Neq, 0);
    while i < |input|
      invariant 0 <= i <= |input| && Fed(parser, pattern, input[..i])
      invariant i > 0 ==> last == Event(Compared(pattern, input[..i]), input[i - 1])
    {
      assert input[..i] + [input[i]] == input[..i + 1];
      last := FeedOne(parser, pattern, input[..i], input[i]);
      i := i + 1;
    }
    assert input[..i] == input;
  }
}
