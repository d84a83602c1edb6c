/** What single keys mean, under exact arithmetic and as edits of the buffer. */
module CalculatorKeys {
  import opened Tokens
  import opened Numerals
  import opened CalculatorEngine
  import opened CalculatorRuns

  ghost predicate Exact(ar: Arithmetic) {
    && ExactSums(ar)
    && (forall x, y :: ar.compute(Multiply, x, y) == x * y)
    && (forall x, y | y != 0.0 :: ar.compute(Divide, x, y) == x / y)
  }

  lemma DivisionUndone(x: real, y: real)
    requires y != 0.0
    ensures x / y * y == x
  {
  }

  ghost predicate IsPercent(pending: Option<BinaryOp>, a: real, b: real, v: real) {
    match pending
    case None => 100.0 * v == b
    case Some(Add) => 100.0 * v == 100.0 * a + a * b
    case Some(Subtract) => 100.0 * v == 100.0 * a - a * b
    case Some(Multiply) => 100.0 * v == a * b
    case Some(Divide) => v * b == 100.0 * a
  }

  /** Percent of a waiting operation: a raised or lowered by b percent, b percent of a, or a as b percent of what. */
  lemma PercentMeaning(ar: Arithmetic, s: CalcState)
    requires Exact(ar) && !s.phase.Error? && !s.markup.Waiting?
    ensures var b, t := Operand(s), PressPercent(ar, s);
            if s.pending == Some(Divide) && b == 0.0 then t.phase.Error?
            else t.phase.Evaluated? && t.pending == None && t.input == "" && IsPercent(s.pending, s.acc, b, t.acc)
  {
    hide IsNumeral, DecimalValue, PercentOf;
    PercentValue(ar, s);
  }

  lemma PercentValue(ar: Arithmetic, s: CalcState)
    requires Exact(ar)
    ensures var b := Operand(s);
            if s.pending == Some(Divide) && b == 0.0 then PercentOf(ar, s).Fault?
            else PercentOf(ar, s).Value? && IsPercent(s.pending, s.acc, b, PercentOf(ar, s).v)
  {
    hide IsNumeral, DecimalValue;
    var a, b := s.acc, Operand(s);
    assert ar.compute(Divide, b, 100.0) == b / 100.0;
    assert ar.compute(Divide, ar.compute(Multiply, a, b), 100.0) == a * b / 100.0;
    if s.pending == Some(Divide) && b != 0.0 {
      DivisionUndone(a, b / 100.0);
    }
  }

  /** The price is shown, its cost being all but the rate of it; `=` shows the profit, once. */
  ghost predicate IsPriced(ar: Arithmetic, t: CalcState, cost: real, rate: real) {
    && t.phase.Evaluated? && t.pending == None
    && Operand(t) == t.acc && t.acc * (1.0 - rate / 100.0) == cost
    && t.history == "MU: " + ar.show(cost) + " / (1 - " + ar.show(rate) + "%)"
    && var u := PressEquals(ar, t);
       Operand(u) == t.acc - cost && u.history == ar.show(t.acc) + " = " && PressEquals(ar, u) == u
  }

  /**
    Markup: cost, MU, a typed rate and % give the price whose margin is that rate, or the error exactly at
    one hundred percent; the `=` after it gives the profit.
   */
  lemma MarkupMeaning(ar: Arithmetic, s: CalcState, rate: TypedOperand)
    requires Exact(ar) && BufferInv(s) && !s.phase.Error? && WellTyped(rate)
    ensures var cost, r := Operand(s), Amount(rate);
            var keys := [Mu] + OperandKeys(rate) + [Percent];
            && ValidKeys(keys)
            && var t := PressAll(ar, s, keys);
               && (t.phase.Error? <==> r == 100.0)
               && (r != 100.0 ==> IsPriced(ar, t, cost, r))
  {
    hide Exact, IsPriced, BufferInv, WellTyped, PressMu, PressPercent, PressEquals, Amount, IsNumeral, DecimalValue,
         PressAll, OperandKeys;
    MuStarts(s);
    TypingOperand(ar, PressMu(s), rate);
    MarkupKeys(ar, s, OperandKeys(rate));
    MarkupPercent(ar, PressAll(ar, PressMu(s), OperandKeys(rate)));
  }

  lemma MarkupKeys(ar: Arithmetic, s: CalcState, keys: seq<CalcAction>)
    requires ValidKeys(keys)
    ensures ValidKeys([Mu] + keys + [Percent])
    ensures PressAll(ar, s, [Mu] + keys + [Percent]) == PressPercent(ar, PressAll(ar, PressMu(s), keys))
  {
    hide PressAll, PressPercent, PressMu;
    PressOne(ar, s, Mu);
    PressAllConcat(ar, s, [Mu], keys);
    PressAllConcat(ar, s, [Mu] + keys, [Percent]);
    PressOne(ar, PressAll(ar, PressMu(s), keys), Percent);
  }

  lemma MuStarts(s: CalcState)
    requires BufferInv(s)
    ensures BufferInv(PressMu(s))
    ensures !s.phase.Error? ==> PressMu(s).phase.OpPending? && PressMu(s).markup == Waiting(Operand(s))
  {
  }

  lemma PressOne(ar: Arithmetic, s: CalcState, a: CalcAction)
    requires ValidAction(a)
    ensures PressAll(ar, s, [a]) == Press(ar, s, a)
  {
    hide Press;
    assert [a][..0] == [];
  }

  lemma MarkupPercent(ar: Arithmetic, u: CalcState)
    requires Exact(ar) && u.phase.Input? && u.markup.Waiting?
    ensures var t, r := PressPercent(ar, u), Operand(u);
            && (t.phase.Error? <==> r == 100.0)
            && (r != 100.0 ==> IsPriced(ar, t, u.markup.cost, r))
  {
    hide IsNumeral;
    EmptyIsNoNumeral();
    var r := Operand(u);
    if r != 100.0 {
      DivisionUndone(u.markup.cost, 1.0 - r / 100.0);
    }
  }

  /**
    Backspace undoes a digit exactly when the digit was ignored, opened an entry from rest, or extended one
    other than a bare negative zero; a digit typed over an operator or a result is not undone.
   */
  lemma BackspaceUndoesDigit(s: CalcState, d: nat)
    requires BufferInv(s) && d <= 9
    ensures PressBackspace(PressDigit(s, d)) == s <==>
            s.phase.Error? || s.phase.Idle? || (s.phase.Input? && s.input != "-0")
  {
    hide Whole, Frac, HasPoint;
    assert (s.input + [DigitChar(d)])[..|s.input|] == s.input;
    MinusIsNoNumeral();
    assert ("" + [DigitChar(d)])[..0] == "";
  }

  /** What it leaves instead: over a waiting operator the screen falls to zero, whatever value was shown there. */
  lemma BackspaceAfterOperatorShowsZero(ar: Arithmetic, s: CalcState, d: nat)
    requires BufferInv(s) && d <= 9 && (s.phase.OpPending? || s.phase.Evaluated?)
    ensures var t := PressBackspace(PressDigit(s, d));
            && t == s.(input := "", phase := Idle) && Shown(ar, t).display == "0"
            && (s.input == "" ==> Shown(ar, s).display == ar.show(s.acc))
  {
    hide Whole, Frac, HasPoint, IsNumeral;
    assert ("" + [DigitChar(d)])[..0] == "";
  }

  lemma MinusIsNoNumeral()
    ensures !IsNumeral("-")
  {
    assert Body("-") == "";
  }

  /** Changing the sign twice changes nothing, in any reachable state. */
  lemma SignTwice(s: CalcState)
    requires BufferInv(s)
    ensures PressSign(PressSign(s)) == s
  {
    hide Whole, Frac, HasPoint, IsNumeral;
    if s.phase.Input? {
      FlipSign(s.input);
      Reassembled(s.input);
    }
  }

  /** Recall brings the ledger's sum back as the operand. */
  lemma RecallMeaning(ar: Arithmetic, keys: seq<CalcAction>)
    requires ValidKeys(keys) && ExactSums(ar) && !PressAll(ar, FRESH, keys).phase.Error?
    ensures var s := PressAll(ar, FRESH, keys);
            var t := Press(ar, s, MemoryRecall);
            && Operand(t) == SignedSum(Ledger(ar, FRESH, keys)) && Shown(ar, t).display == ar.show(Operand(t))
            && t.pending == s.pending && t.memory == s.memory && t.lastOp == s.lastOp && t.lastOperand == s.lastOperand
  {
    hide PressAll, Ledger, SignedSum;
    MemoryIsSignedSum(ar, keys);
    EmptyIsNoNumeral();
  }

  /**
    After an authoritative snapshot the engine itself would show that snapshot exactly when its number prints
    back as it was written and a lit M meets a memory that is not zero: the amount does not travel.
   */
  lemma RestoredViewAgrees(ar: Arithmetic, s: CalcState, v: CalcResult)
    requires if v.isError then v.display == "错误" else IsNumeral(v.display)
    requires v.memoryIndicator == "" || v.memoryIndicator == "M"
    ensures Shown(ar, Restore(s, v)) == v <==>
            && (v.isError || ar.show(DecimalValue(v.display)) == v.display)
            && (v.memoryIndicator == "M" ==> s.memory != 0.0)
  {
    hide IsNumeral, DecimalValue;
    assert "M" != "" by { assert |"M"| == 1; }
  }

  /**
    After a snapshot nothing of the old calculation is left to apply: `=` changes nothing, a chain of operators and
    operands goes on from the number shown, and an error stays until AC.
   */
  lemma {:induction false} SnapshotStartsOver(
    ar: Arithmetic, s: CalcState, v: CalcResult, links: seq<Link>, again: nat, keys: seq<CalcAction>)
    requires v.isError || IsNumeral(v.display)
    requires links != [] && WellTypedChain(links) && ValidKeys(keys) && AllClear !in keys
    ensures !v.isError ==>
              && PressEquals(ar, Restore(s, v)) == Restore(s, v)
              && ValidKeys(ChainKeys(links) + [Equals] + Again(again))
              && Settled(ar, PressAll(ar, Restore(s, v), ChainKeys(links) + [Equals] + Again(again)),
                         DecimalValue(v.display), links, again)
    ensures v.isError ==> PressAll(ar, Restore(s, v), keys) == Restore(s, v)
  {
    hide IsNumeral, DecimalValue, Settled, PressAll, ChainKeys, WellTyped;
    EmptyIsNoNumeral();
    if v.isError {
      ErrorAbsorbs(ar, Restore(s, v), keys);
    } else {
      ContinuesTheFold(ar, Restore(s, v), links, again);
    }
  }

  ghost predicate ExactRoots(ar: Arithmetic) {
    forall x :: ar.sqrt(x).Some? ==> ar.sqrt(x).value * ar.sqrt(x).value == x
  }

  /**
    The root key: the root replaces the operand, or the error says which failure it was. It replaces the accumulated
    value with it, so an operator that waited is then applied to the root twice.
   */
  lemma {:induction false} RootMeaning(ar: Arithmetic, s: CalcState)
    requires BufferInv(s) && !s.phase.Error?
    ensures var x, t := Operand(s), PressRoot(ar, s);
            if x < 0.0 then t == s.(phase := Error, history := "输入无效")
            else if ar.sqrt(x) == None then t == s.(phase := Error, history := "溢出")
            else
              && t.phase.Evaluated? && Some(Operand(t)) == ar.sqrt(x) && Shown(ar, t).display == ar.show(Operand(t))
              && (ExactRoots(ar) ==> Operand(t) * Operand(t) == x)
              && t.pending == s.pending
              && (s.pending.Some? && !s.pending.value.Divide? ==>
                    Carried(ar, t) == Some(ar.compute(s.pending.value, Operand(t), Operand(t))))
  {
    hide IsNumeral, DecimalValue;
    EmptyIsNoNumeral();
  }

  /** The memory keys leave the operand and the calculation alone, and end the entry: the next digit opens a new one. */
  lemma {:induction false} MemoryKeysEndTheEntry(ar: Arithmetic, s: CalcState, a: CalcAction, d: nat)
    requires BufferInv(s) && !s.phase.Error? && (a.MemoryAdd? || a.MemorySubtract? || a.MemoryClear?) && d <= 9
    ensures var t := Press(ar, s, a);
            && t == s.(memory := t.memory, phase := Evaluated) && Operand(t) == Operand(s)
            && PressDigit(t, d) == t.(input := [DigitChar(d)], phase := Input)
  {
    hide IsNumeral, DecimalValue;
    assert "" + [DigitChar(d)] == [DigitChar(d)];
  }

  /** The sign key negates the operand, except a number kept on show by a memory key: there only what lies behind it. */
  lemma {:induction false} SignMeaning(ar: Arithmetic, s: CalcState)
    requires BufferInv(s) && !s.phase.Error?
    ensures var t := PressSign(s);
            && t.phase == s.phase && t.pending == s.pending
            && (if s.phase.Evaluated? && s.input != "" then Operand(t) == Operand(s) && t.acc == -s.acc
                else Operand(t) == -Operand(s))
  {
    hide Whole, Frac, HasPoint, Magnitude;
    EmptyIsNoNumeral();
    if s.phase.Input? {
      FlipSign(s.input);
    }
  }

  /** AC forgets everything: what follows it does not depend on what came before. */
  lemma {:induction false} AllClearForgets(ar: Arithmetic, s: CalcState, keys: seq<CalcAction>, more: seq<CalcAction>)
    requires ValidKeys(keys) && ValidKeys(more)
    ensures ValidKeys(keys + [AllClear] + more)
    ensures PressAll(ar, s, keys + [AllClear] + more)
         == PressAll(ar, CalcState("", 0.0, None, 0.0, None, 0.0, Idle, NoMarkup, ""), more)
  {
    hide PressAll;
    PressAllConcat(ar, s, keys, [AllClear]);
    PressAllConcat(ar, s, keys + [AllClear], more);
    PressOne(ar, PressAll(ar, s, keys), AllClear);
  }
}
