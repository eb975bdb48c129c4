/**
 * The Arduino-level view of the board's pins that boardSetupPins and the
 * LED helpers work on: each pin has a mode (set by pinMode) and an output
 * level (set by digitalWrite). A run of such calls is recorded as a trace
 * of operations; Replay gives the pin states a trace leads to.
 */
module PinTrace {
  import opened Wrappers

  datatype Mode = Input | InputPullup | InputPulldown | Output

  datatype Level = Low | High

  datatype PinState = PinState(mode: Mode, level: Level)

  /** One pinMode or digitalWrite call. */
  datatype Op = SetMode(pin: nat, mode: Mode) | Write(pin: nat, level: Level)

  /** digitalWrite's bool argument: true is HIGH. */
  function LevelOf(b: bool): Level {
    if b then High else Low
  }

  /** A pin that sources current: an output driven HIGH. */
  predicate DrivesHigh(st: PinState) {
    st.mode == Output && st.level == High
  }

  /** Every operation names a pin of a board with n pins. */
  predicate Fits(ops: seq<Op>, n: nat) {
    forall i :: 0 <= i < |ops| ==> ops[i].pin < n
  }

  lemma FitsWider(ops: seq<Op>, m: nat, n: nat)
    requires Fits(ops, m) && m <= n
    ensures Fits(ops, n)
  {
  }

  lemma FitsConcat(a: seq<Op>, b: seq<Op>, n: nat)
    requires Fits(a, n) && Fits(b, n)
    ensures Fits(a + b, n)
  {
    forall i | 0 <= i < |a + b| ensures (a + b)[i].pin < n {
      if i >= |a| {
        assert (a + b)[i] == b[i - |a|];
      }
    }
  }

  /** No operation of the trace names pin p. */
  predicate Avoids(ops: seq<Op>, p: nat) {
    forall i :: 0 <= i < |ops| ==> ops[i].pin != p
  }

  lemma AvoidsConcat(a: seq<Op>, b: seq<Op>, p: nat)
    ensures Avoids(a + b, p) <==> Avoids(a, p) && Avoids(b, p)
  {
    if Avoids(a, p) && Avoids(b, p) {
      forall i | 0 <= i < |a + b| ensures (a + b)[i].pin != p {
        if i >= |a| {
          assert (a + b)[i] == b[i - |a|];
        }
      }
    }
    if Avoids(a + b, p) {
      forall i | 0 <= i < |a| ensures a[i].pin != p {
        assert (a + b)[i] == a[i];
      }
      forall i | 0 <= i < |b| ensures b[i].pin != p {
        assert (a + b)[|a| + i] == b[i];
      }
    }
  }

  // Regrouping of concatenated traces. Each fact holds by the sequence axioms
  // alone; stating it once over plain sequences keeps the solver from
  // unfolding the setup groups when a proof needs the trace split another way.

  /** Recording calls one at a time records them in order. */
  lemma AppendTwo(t: seq<Op>, a: Op, b: Op)
    ensures t + [a] + [b] == t + [a, b]
  {
  }

  lemma AppendThree(t: seq<Op>, a: Op, b: Op, c: Op)
    ensures t + [a] + [b] + [c] == t + [a, b, c]
  {
  }

  lemma AppendFour(t: seq<Op>, a: Op, b: Op, c: Op, d: Op)
    ensures t + [a] + [b] + [c] + [d] == t + [a, b, c, d]
  {
  }

  lemma AppendFive(t: seq<Op>, a: Op, b: Op, c: Op, d: Op, e: Op)
    ensures t + [a] + [b] + [c] + [d] + [e] == t + [a, b, c, d, e]
  {
  }

  lemma AppendAssoc4(t: seq<Op>, a: seq<Op>, b: seq<Op>, c: seq<Op>, d: seq<Op>)
    ensures t + a + b + c + d == t + (a + b + c + d)
  {
  }

  /** Appending the seven groups one after the other appends the whole setup trace. */
  lemma AppendGroups(t: seq<Op>, a: seq<Op>, b: seq<Op>, c: seq<Op>, d: seq<Op>,
                     e: seq<Op>, f: seq<Op>, g: seq<Op>)
    ensures t + a + b + c + d + e + f + g == t + ((a + b + c + d) + e + f + g)
  {
  }

  lemma RegroupMiddle(a: seq<Op>, x: seq<Op>, w: Op, y: seq<Op>, c: seq<Op>, d: seq<Op>)
    ensures a + (x + [w] + y) + c + d == (a + x) + [w] + (y + c + d)
    ensures a + c + (x + [w] + y) + d == (a + c + x) + [w] + (y + d)
  {
  }

  lemma Regroup(a: seq<Op>, b: seq<Op>, c: seq<Op>, d: seq<Op>, e: seq<Op>, f: seq<Op>, g: seq<Op>)
    ensures (a + b + c + d) + e + f + g == (a + b) + c + (d + e + f + g)
    ensures (a + b + c + d) + e + f + g == (a + b + c) + d + (e + f + g)
  {
  }

  lemma Regroup3(a: seq<Op>, b: seq<Op>, c: seq<Op>, d: seq<Op>)
    ensures (a + (b + c)) + d == (a + b) + (c + d)
  {
  }

  /** The effect of one call: only the named pin changes, and only the field the call sets. */
  function Apply(s: seq<PinState>, op: Op): (r: seq<PinState>)
    requires op.pin < |s|
    ensures |r| == |s|
    ensures forall q :: 0 <= q < |s| && q != op.pin ==> r[q] == s[q]
    ensures op.SetMode? ==> r[op.pin].mode == op.mode && r[op.pin].level == s[op.pin].level
    ensures op.Write? ==> r[op.pin].level == op.level && r[op.pin].mode == s[op.pin].mode
  {
    match op
    case SetMode(p, m) => s[p := s[p].(mode := m)]
    case Write(p, l) => s[p := s[p].(level := l)]
  }

  /** The pin states after performing the calls of `ops` in order, starting from `s`. */
  function Replay(s: seq<PinState>, ops: seq<Op>): (r: seq<PinState>)
    requires Fits(ops, |s|)
    ensures |r| == |s|
    decreases |ops|
  {
    if ops == [] then s else Replay(Apply(s, ops[0]), ops[1..])
  }

  /** Position of the first occurrence of `op`, or |ops| when it does not occur. */
  function FirstIndex(ops: seq<Op>, op: Op): (r: nat)
    ensures r <= |ops|
    ensures r < |ops| ==> ops[r] == op
    ensures forall j :: 0 <= j < r ==> ops[j] != op
  {
    if ops == [] then 0
    else if ops[0] == op then 0
    else 1 + FirstIndex(ops[1..], op)
  }

  /** The mode the last pinMode call on pin p sets, if there is one. */
  function LastMode(ops: seq<Op>, p: nat): (r: Option<Mode>)
    ensures r.Some? ==> exists i :: 0 <= i < |ops| && ops[i] == SetMode(p, r.value)
                                   && forall j :: i < j < |ops| ==> !(ops[j].SetMode? && ops[j].pin == p)
    ensures r.None? ==> forall i :: 0 <= i < |ops| ==> !(ops[i].SetMode? && ops[i].pin == p)
  {
    if ops == [] then None
    else
      var later := LastMode(ops[1..], p);
      if later.Some? then later
      else if ops[0].SetMode? && ops[0].pin == p then Some(ops[0].mode)
      else None
  }

  /** The level the last digitalWrite call on pin p sets, if there is one. */
  function LastLevel(ops: seq<Op>, p: nat): (r: Option<Level>)
    ensures r.Some? ==> exists i :: 0 <= i < |ops| && ops[i] == Write(p, r.value)
                                   && forall j :: i < j < |ops| ==> !(ops[j].Write? && ops[j].pin == p)
    ensures r.None? ==> forall i :: 0 <= i < |ops| ==> !(ops[i].Write? && ops[i].pin == p)
  {
    if ops == [] then None
    else
      var later := LastLevel(ops[1..], p);
      if later.Some? then later
      else if ops[0].Write? && ops[0].pin == p then Some(ops[0].level)
      else None
  }

  lemma {:induction false} ReplayConcat(s: seq<PinState>, a: seq<Op>, b: seq<Op>)
    requires Fits(a, |s|) && Fits(b, |s|)
    ensures Fits(a + b, |s|)
    ensures Replay(s, a + b) == Replay(Replay(s, a), b)
    decreases |a|
  {
    if a == [] {
      assert a + b == b;
    } else {
      assert (a + b)[1..] == a[1..] + b;
      ReplayConcat(Apply(s, a[0]), a[1..], b);
    }
  }

  /** Replaying one more call applies it to the state reached so far. */
  lemma ReplayStep(s: seq<PinState>, ops: seq<Op>, op: Op)
    requires Fits(ops, |s|) && op.pin < |s|
    ensures Fits(ops + [op], |s|)
    ensures Replay(s, ops + [op]) == Apply(Replay(s, ops), op)
  {
    ReplayConcat(s, ops, [op]);
    assert [op][1..] == [];
  }

  /**
   * After a trace, each pin has the mode of its last pinMode call and the
   * level of its last digitalWrite call; a field no call sets keeps its
   * starting value.
   */
  lemma {:induction false} ReplayAt(s: seq<PinState>, ops: seq<Op>, p: nat)
    requires Fits(ops, |s|) && p < |s|
    ensures Replay(s, ops)[p] == PinState(LastMode(ops, p).GetOr(s[p].mode), LastLevel(ops, p).GetOr(s[p].level))
    decreases |ops|
  {
    if ops != [] {
      ReplayAt(Apply(s, ops[0]), ops[1..], p);
    }
  }

  lemma EmptyReplay(s: seq<PinState>)
    ensures Replay(s, []) == s
  {
  }

  /** Writing a pin the level it already has changes nothing. */
  lemma ReplayWriteSame(s: seq<PinState>, p: nat, l: Level)
    requires p < |s| && s[p].level == l
    ensures Fits([Write(p, l)], |s|)
    ensures Replay(s, [Write(p, l)]) == s
  {
    assert [Write(p, l)][1..] == [];
    assert s[p := s[p].(level := l)] == s;
  }

  /** Replaying a trace a second time changes nothing more. */
  lemma ReplayIdempotent(s: seq<PinState>, ops: seq<Op>)
    requires Fits(ops, |s|)
    ensures Replay(Replay(s, ops), ops) == Replay(s, ops)
  {
    var once := Replay(s, ops);
    forall p | 0 <= p < |s| ensures Replay(once, ops)[p] == once[p] {
      ReplayAt(s, ops, p);
      ReplayAt(once, ops, p);
    }
  }

  /** The effect of one call on the state of pin p alone. */
  function Step(st: PinState, op: Op, p: nat): PinState {
    if op.pin != p then st
    else match op
      case SetMode(_, m) => st.(mode := m)
      case Write(_, l) => st.(level := l)
  }

  /** The state pin p reaches from `st` through the calls of `ops`, looking at that pin alone. */
  function Track(st: PinState, ops: seq<Op>, p: nat): PinState
    decreases |ops|
  {
    if ops == [] then st else Track(Step(st, ops[0], p), ops[1..], p)
  }

  /** Replaying the whole board and following one pin alone agree on that pin. */
  lemma {:induction false} ReplayTrack(s: seq<PinState>, ops: seq<Op>, p: nat)
    requires Fits(ops, |s|) && p < |s|
    ensures Replay(s, ops)[p] == Track(s[p], ops, p)
    decreases |ops|
  {
    if ops != [] {
      ReplayTrack(Apply(s, ops[0]), ops[1..], p);
    }
  }

  lemma {:induction false} TrackConcat(st: PinState, a: seq<Op>, b: seq<Op>, p: nat)
    ensures Track(st, a + b, p) == Track(Track(st, a, p), b, p)
    decreases |a|
  {
    if a == [] {
      assert a + b == b;
    } else {
      assert (a + b)[1..] == a[1..] + b;
      TrackConcat(Step(st, a[0], p), a[1..], b, p);
    }
  }

  /** Following one pin through a short run of calls, one call at a time. */
  lemma TrackSteps(st: PinState, ops: seq<Op>, p: nat)
    requires 1 <= |ops| <= 5
    ensures |ops| == 1 ==> Track(st, ops, p) == Step(st, ops[0], p)
    ensures |ops| == 2 ==> Track(st, ops, p) == Step(Step(st, ops[0], p), ops[1], p)
    ensures |ops| == 3 ==> Track(st, ops, p) == Step(Step(Step(st, ops[0], p), ops[1], p), ops[2], p)
    ensures |ops| == 4 ==>
              Track(st, ops, p) == Step(Step(Step(Step(st, ops[0], p), ops[1], p), ops[2], p), ops[3], p)
    ensures |ops| == 5 ==>
              Track(st, ops, p)
                == Step(Step(Step(Step(Step(st, ops[0], p), ops[1], p), ops[2], p), ops[3], p), ops[4], p)
  {
    var s1 := Step(st, ops[0], p);
    assert Track(st, ops, p) == Track(s1, ops[1..], p);
    if |ops| >= 2 {
      var s2 := Step(s1, ops[1], p);
      assert Track(s1, ops[1..], p) == Track(s2, ops[2..], p) by { assert ops[1..][1..] == ops[2..]; }
      if |ops| >= 3 {
        var s3 := Step(s2, ops[2], p);
        assert Track(s2, ops[2..], p) == Track(s3, ops[3..], p) by { assert ops[2..][1..] == ops[3..]; }
        if |ops| >= 4 {
          var s4 := Step(s3, ops[3], p);
          assert Track(s3, ops[3..], p) == Track(s4, ops[4..], p) by { assert ops[3..][1..] == ops[4..]; }
          if |ops| == 5 {
            assert Track(s4, ops[4..], p) == Track(Step(s4, ops[4], p), ops[5..], p) by { assert ops[4..][1..] == ops[5..]; }
          }
        }
      }
    }
  }

  lemma {:induction false} FirstIndexConcat(a: seq<Op>, b: seq<Op>, x: Op)
    ensures FirstIndex(a + b, x) == if x in a then FirstIndex(a, x) else |a| + FirstIndex(b, x)
    decreases |a|
  {
    if a == [] {
      assert a + b == b;
    } else {
      assert (a + b)[1..] == a[1..] + b;
      FirstIndexConcat(a[1..], b, x);
    }
  }

  /** In A + [x] + B, x first occurs right after A, and y, absent from A, first occurs after it. */
  lemma FirstIndexSplit(a: seq<Op>, x: Op, b: seq<Op>, y: Op)
    requires x !in a && y !in a && x != y && y in b
    ensures FirstIndex(a + [x] + b, x) == |a|
    ensures |a| < FirstIndex(a + [x] + b, y) < |a + [x] + b|
  {
    FirstIndexConcat(a, [x] + b, x);
    FirstIndexConcat(a, [x] + b, y);
    assert a + [x] + b == a + ([x] + b);
    assert ([x] + b)[1..] == b;
  }

  /**
   * ops splits as A + [Write(p, LOW)] + B, where A never names p and B makes
   * p an output but never writes it HIGH.
   */
  predicate LowFirstSplit(ops: seq<Op>, a: seq<Op>, b: seq<Op>, p: nat) {
    && ops == a + [Write(p, Low)] + b
    && Avoids(a, p)
    && SetMode(p, Output) in b && Write(p, High) !in b
  }

  /** In such a trace the LOW write comes before the first pinMode(p, OUTPUT), and p is never written HIGH. */
  lemma LowBeforeOutput(ops: seq<Op>, a: seq<Op>, b: seq<Op>, p: nat)
    requires LowFirstSplit(ops, a, b, p)
    ensures FirstIndex(ops, Write(p, Low)) < FirstIndex(ops, SetMode(p, Output)) < |ops|
    ensures Write(p, High) !in ops
  {
    FirstIndexSplit(a, Write(p, Low), b, SetMode(p, Output));
  }

  /** Pin p drives HIGH after no prefix of ops, the empty one and ops itself included. */
  predicate NeverHighDuring(s: seq<PinState>, ops: seq<Op>, p: nat) {
    && p < |s|
    && forall k :: 0 <= k <= |ops| ==> Fits(ops[..k], |s|) && !DrivesHigh(Replay(s, ops[..k])[p])
  }

  /**
   * In such a trace p never drives HIGH at any point, provided it did not
   * at the start.
   */
  lemma NeverDrivesHigh(s: seq<PinState>, ops: seq<Op>, a: seq<Op>, b: seq<Op>, p: nat)
    requires LowFirstSplit(ops, a, b, p)
    requires p < |s| && Fits(ops, |s|) && !DrivesHigh(s[p])
    ensures NeverHighDuring(s, ops, p)
  {
    LowBeforeOutput(ops, a, b, p);
    forall k | 0 <= k <= |ops|
      ensures Fits(ops[..k], |s|) && !DrivesHigh(Replay(s, ops[..k])[p])
    {
      NeverDrivesHighUpTo(s, a, b, p, k);
    }
  }

  lemma {:induction false} NeverDrivesHighUpTo(s: seq<PinState>, a: seq<Op>, b: seq<Op>, p: nat, k: nat)
    requires p < |s| && Fits(a + [Write(p, Low)] + b, |s|)
    requires !DrivesHigh(s[p])
    requires SetMode(p, Output) !in a
    requires Write(p, High) !in a + [Write(p, Low)] + b
    requires k <= |a + [Write(p, Low)] + b|
    ensures var ops := a + [Write(p, Low)] + b;
            Fits(ops[..k], |s|) && !DrivesHigh(Replay(s, ops[..k])[p])
            && (k > |a| ==> Replay(s, ops[..k])[p].level == Low)
  {
    var ops := a + [Write(p, Low)] + b;
    if k == 0 {
      assert ops[..0] == [];
    } else {
      var j := k - 1;
      NeverDrivesHighUpTo(s, a, b, p, j);
      assert ops[..k] == ops[..j] + [ops[j]];
      ReplayStep(s, ops[..j], ops[j]);
      assert ops[j] in ops;
      if j < |a| {
        assert ops[j] == a[j];
      } else if j == |a| {
        assert ops[j] == Write(p, Low);
      }
    }
  }
}
