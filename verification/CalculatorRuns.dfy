/** What holds of the engine over whole runs of keys. */
module CalculatorRuns {
  import opened Tokens
  import opened Numerals
  import opened CalculatorEngine

  ghost predicate ValidKeys(keys: seq<CalcAction>) {
    forall i | 0 <= i < |keys| :: ValidAction(keys[i])
  }

  ghost function PressAll(ar: Arithmetic, s: CalcState, keys: seq<CalcAction>): CalcState
    requires ValidKeys(keys)
  {
    if keys == [] then s else Press(ar, PressAll(ar, s, keys[..|keys| - 1]), keys[|keys| - 1])
  }

  lemma {:induction false} PressAllConcat(ar: Arithmetic, s: CalcState, a: seq<CalcAction>, b: seq<CalcAction>)
    requires ValidKeys(a) && ValidKeys(b)
    ensures ValidKeys(a + b)
    ensures PressAll(ar, s, a + b) == PressAll(ar, PressAll(ar, s, a), b)
    decreases |b|
  {
    if b == [] {
      assert a + b == a;
    } else {
      PressAllConcat(ar, s, a, b[..|b| - 1]);
      assert (a + b)[..|a + b| - 1] == a + b[..|b| - 1];
    }
  }

  // ---------- the input buffer ----------

  ghost predicate BufferInv(s: CalcState) {
    && (s.input == "" || IsNumeral(s.input))
    && (s.phase.Input? ==> s.input != "")
    && (s.phase.Idle? || s.phase.OpPending? ==> s.input == "")
  }

  lemma AppendDigit(s: string, c: char)
    requires IsNumeral(s) && IsDigit(c)
    ensures IsNumeral(s + [c]) && Signed(s + [c]) == Signed(s) && HasPoint(s + [c]) == HasPoint(s)
    ensures if HasPoint(s) then Whole(s + [c]) == Whole(s) && Frac(s + [c]) == Frac(s) + [c]
            else Whole(s + [c]) == Whole(s) + [c] && Frac(s + [c]) == Frac(s) == ""
  {
    hide Whole, Frac, HasPoint, IsNumeral;
    Reassembled(s);
    if HasPoint(s) {
      PartsOf(Signed(s), Whole(s), true, Frac(s) + [c]);
      assert (if Signed(s) then "-" else "") + Whole(s) + "." + (Frac(s) + [c]) == s + [c];
    } else {
      PartsOf(Signed(s), Whole(s) + [c], false, "");
      assert (if Signed(s) then "-" else "") + (Whole(s) + [c]) + "" + "" == s + [c];
    }
  }

  lemma AppendPoint(s: string)
    requires IsNumeral(s) && !HasPoint(s)
    ensures IsNumeral(s + ".") && Signed(s + ".") == Signed(s) && HasPoint(s + ".")
    ensures Whole(s + ".") == Whole(s) && Frac(s + ".") == ""
  {
    hide Whole, Frac, HasPoint, IsNumeral;
    Reassembled(s);
    PartsOf(Signed(s), Whole(s), true, "");
    assert (if Signed(s) then "-" else "") + Whole(s) + "." + "" == s + ".";
  }

  lemma PointIsVisible(s: string)
    requires IsNumeral(s)
    ensures HasPoint(s) <==> '.' in s
  {
    hide Whole, Frac, HasPoint, IsNumeral;
    Reassembled(s);
    assert forall i | 0 <= i < |Whole(s)| :: IsDigit(Whole(s)[i]);
  }

  lemma FlipSign(s: string)
    requires IsNumeral(s)
    ensures var t := if s[0] == '-' then s[1..] else "-" + s;
            && IsNumeral(t) && Signed(t) == !Signed(s)
            && Whole(t) == Whole(s) && HasPoint(t) == HasPoint(s) && Frac(t) == Frac(s)
  {
    hide Whole, Frac, HasPoint, IsNumeral;
    Reassembled(s);
    var t := if s[0] == '-' then s[1..] else "-" + s;
    PartsOf(!Signed(s), Whole(s), HasPoint(s), Frac(s));
    assert t == (if !Signed(s) then "-" else "") + Whole(s) + (if HasPoint(s) then "." else "") + Frac(s);
  }

  /** What dropping the last character of a numeral drops: a fraction digit, the point, or a whole digit. */
  lemma DropLastParts(s: string)
    requires IsNumeral(s)
    ensures var t, w, f := s[..|s| - 1], Whole(s), Frac(s);
            if HasPoint(s) || |w| > 1 then
              && IsNumeral(t) && Signed(t) == Signed(s)
              && HasPoint(t) == (f != "")
              && Whole(t) == (if HasPoint(s) then w else w[..|w| - 1])
              && Frac(t) == (if f == "" then "" else f[..|f| - 1])
            else t == (if Signed(s) then "-" else "")
  {
    hide Whole, Frac, HasPoint, IsNumeral;
    Reassembled(s);
    var t, w, f := s[..|s| - 1], Whole(s), Frac(s);
    var m := if Signed(s) then "-" else "";
    if f != "" {
      PartsOf(Signed(s), w, true, f[..|f| - 1]);
      assert t == m + w + "." + f[..|f| - 1];
    } else if HasPoint(s) {
      PartsOf(Signed(s), w, false, "");
      assert t == m + w + "" + "";
    } else if |w| > 1 {
      PartsOf(Signed(s), w[..|w| - 1], false, "");
      assert t == m + w[..|w| - 1] + "" + "";
    } else {
      assert t == m;
    }
  }

  lemma EmptyIsNoNumeral()
    ensures !IsNumeral("")
  {
    assert Whole("") == "";
  }

  lemma FirstKeys(d: nat)
    requires d <= 9
    ensures IsNumeral([DigitChar(d)]) && !Signed([DigitChar(d)]) && !HasPoint([DigitChar(d)])
    ensures Whole([DigitChar(d)]) == [DigitChar(d)] && Frac([DigitChar(d)]) == ""
    ensures IsNumeral("0.") && !Signed("0.") && HasPoint("0.") && Whole("0.") == "0" && Frac("0.") == ""
  {
    PartsOf(false, [DigitChar(d)], false, "");
    assert "" + [DigitChar(d)] + "" + "" == [DigitChar(d)];
    PartsOf(false, "0", true, "");
    assert "" + "0" + "." + "" == "0.";
  }

  lemma DigitKeepsBuffer(s: CalcState, d: nat)
    requires BufferInv(s) && d <= 9
    ensures BufferInv(PressDigit(s, d))
  {
    if s.phase.Input? {
      AppendDigit(s.input, DigitChar(d));
    } else {
      FirstKeys(d);
      assert "" + [DigitChar(d)] == [DigitChar(d)];
    }
  }

  lemma PointKeepsBuffer(s: CalcState)
    requires BufferInv(s)
    ensures BufferInv(PressPoint(s))
  {
    FirstKeys(0);
    if s.phase.Input? {
      PointIsVisible(s.input);
      if !HasPoint(s.input) {
        AppendPoint(s.input);
      }
    }
  }

  lemma EditKeepsBuffer(s: CalcState)
    requires BufferInv(s)
    ensures BufferInv(PressBackspace(s)) && BufferInv(PressSign(s))
  {
    hide IsNumeral, Whole, Frac, HasPoint;
    if s.phase.Input? {
      Reassembled(s.input);
      FlipSign(s.input);
      DropLastParts(s.input);
      EmptyIsNoNumeral();
    }
  }

  /** The remaining keys never edit the buffer: they keep it, or empty it and leave the Input phase. */
  lemma OtherKeysClearOrKeep(ar: Arithmetic, s: CalcState, a: CalcAction)
    requires ValidAction(a) && !a.Digit? && !a.DecimalPoint? && !a.Backspace? && !a.PlusMinus?
    ensures var t := Press(ar, s, a);
            || (t.input == "" && !t.phase.Input?)
            || (t.input == s.input && (t.phase == s.phase || t.phase.Evaluated? || t.phase.Error?))
            || (t.input == s.input && t.phase.OpPending? && s.phase.Idle?)
  {
  }

  lemma PressKeepsBuffer(ar: Arithmetic, s: CalcState, a: CalcAction)
    requires BufferInv(s) && ValidAction(a)
    ensures BufferInv(Press(ar, s, a))
  {
    match a {
      case Digit(d) => DigitKeepsBuffer(s, d);
      case DecimalPoint => PointKeepsBuffer(s);
      case Backspace => EditKeepsBuffer(s);
      case PlusMinus => EditKeepsBuffer(s);
      case _ => OtherKeysClearOrKeep(ar, s, a);
    }
  }

  /** What a calculator is fed over its life: keys, local or remote, and authoritative snapshots. */
  datatype CalcInput = Pressed(action: CalcAction) | Restored(view: CalcResult)

  function Feed(ar: Arithmetic, s: CalcState, x: CalcInput): CalcState {
    match x
    case Pressed(a) => if ValidAction(a) then Press(ar, s, a) else s
    case Restored(v) => Restore(s, v)
  }

  ghost function Replay(ar: Arithmetic, s: CalcState, inputs: seq<CalcInput>): CalcState {
    if inputs == [] then s else Feed(ar, Replay(ar, s, inputs[..|inputs| - 1]), inputs[|inputs| - 1])
  }

  /** Every state that any mix of keys and remote snapshots can reach has a well-formed buffer. */
  lemma {:induction false} BufferAlwaysWellFormed(ar: Arithmetic, s: CalcState, inputs: seq<CalcInput>)
    requires BufferInv(s)
    ensures BufferInv(Replay(ar, s, inputs)) && BufferInv(FRESH)
  {
    if inputs != [] {
      var before, last := Replay(ar, s, inputs[..|inputs| - 1]), inputs[|inputs| - 1];
      BufferAlwaysWellFormed(ar, s, inputs[..|inputs| - 1]);
      if last.Pressed? && ValidAction(last.action) {
        PressKeepsBuffer(ar, before, last.action);
      }
    }
  }

  /** The bare minus never survives an edit. */
  lemma NoBareMinus(ar: Arithmetic, inputs: seq<CalcInput>)
    ensures var s := Replay(ar, FRESH, inputs);
            && s.input != "-" && PressBackspace(s).input != "-" && PressSign(s).input != "-"
            && (s.phase.Input? ==> s.input != "") && (s.phase.Idle? || s.phase.OpPending? ==> s.input == "")
  {
    BufferAlwaysWellFormed(ar, FRESH, inputs);
    EditKeepsBuffer(Replay(ar, FRESH, inputs));
    assert !IsNumeral("-") by { assert Body("-") == ""; }
  }

  // ---------- typing an operand ----------

  /**
    What a listener to the keys alone makes of an operand: its sign, how many digits before the point, all
    digits as one number, and how many of them follow the point. No digits before the point means no operand.
   */
  datatype Entry = Entry(minus: bool, places: nat, mantissa: nat, scale: Option<nat>) {
    function Amount(): real {
      var m := mantissa as real / Pow10(if scale.Some? then scale.value else 0) as real;
      if minus then -m else m
    }

    /** One character fewer; the sign is not one of them. */
    function Shorter(): Entry {
      if scale.None? then this.(places := if places == 0 then 0 else places - 1, mantissa := mantissa / 10)
      else if scale.value == 0 then this.(scale := None)
      else this.(mantissa := mantissa / 10, scale := Some(scale.value - 1))
    }
  }

  const SILENCE := Entry(false, 0, 0, None)
  const NEGATIVE_ZERO := Entry(true, 1, 0, None)

  ghost function HeardNext(e: Entry, a: CalcAction): Entry {
    match a
    case Digit(d) =>
      if e.scale.Some? then Entry(e.minus, e.places, 10 * e.mantissa + d, Some(e.scale.value + 1))
      else Entry(e.minus, e.places + 1, 10 * e.mantissa + d, None)
    case DecimalPoint =>
      if e.scale.Some? then e else e.(places := if e.places == 0 then 1 else e.places, scale := Some(0))
    case Backspace => if e.Shorter().places == 0 || e.Shorter() == NEGATIVE_ZERO then SILENCE else e.Shorter()
    case _ => e.(minus := !e.minus)
  }

  ghost function Heard(keys: seq<CalcAction>): Entry {
    if keys == [] then SILENCE else HeardNext(Heard(keys[..|keys| - 1]), keys[|keys| - 1])
  }

  ghost predicate IsTypingKey(a: CalcAction) {
    ValidAction(a) && (a.Digit? || a.DecimalPoint? || a.PlusMinus? || a.Backspace?)
  }

  /** Digits, points, sign changes and erasures, the sign only where there is something to sign. */
  ghost predicate IsTyping(keys: seq<CalcAction>) {
    && (forall i | 0 <= i < |keys| :: IsTypingKey(keys[i]))
    && (forall i | 0 <= i < |keys| :: keys[i].PlusMinus? ==> Heard(keys[..i]).places > 0)
  }

  /** Such a run that leaves an operand. */
  ghost predicate IsEntry(keys: seq<CalcAction>) {
    IsTyping(keys) && Heard(keys).places > 0
  }

  ghost predicate Holds(text: string, e: Entry) {
    && IsNumeral(text)
    && Signed(text) == e.minus
    && HasPoint(text) == e.scale.Some?
    && |Whole(text)| == e.places
    && (e.scale.Some? ==> |Frac(text)| == e.scale.value)
    && e.mantissa == NatOf(Whole(text)) * Pow10(|Frac(text)|) + NatOf(Frac(text))
  }

  lemma NatOfAppend(s: string, c: char)
    requires AllDigits(s) && IsDigit(c)
    ensures AllDigits(s + [c]) && NatOf(s + [c]) == NatOf(s) * 10 + DigitOf(c)
  {
    assert (s + [c])[..|s + [c]| - 1] == s;
  }

  lemma OverCommonScale(w: nat, f: nat, p: nat)
    requires p >= 1
    ensures (w * p + f) as real / p as real == w as real + f as real / p as real
  {
    assert (w * p + f) as real == w as real * p as real + f as real;
    var q := p as real;
    assert (w as real * q) / q == w as real;
  }

  lemma HoldsMeansValue(text: string, e: Entry)
    requires Holds(text, e)
    ensures DecimalValue(text) == e.Amount()
  {
    assert |Frac(text)| == if e.scale.Some? then e.scale.value else 0;
    OverCommonScale(NatOf(Whole(text)), NatOf(Frac(text)), Pow10(|Frac(text)|));
  }

  lemma ShiftedIn(w: nat, p: nat, f: nat, d: nat)
    ensures w * (10 * p) + (f * 10 + d) == 10 * (w * p + f) + d
  {
    assert w * (10 * p) == 10 * (w * p);
  }

  lemma HoldsDigit(text: string, d: nat, e: Entry)
    requires Holds(text, e) && d <= 9
    ensures Holds(text + [DigitChar(d)], HeardNext(e, Digit(d)))
  {
    hide Whole, Frac, HasPoint, Signed;
    var c, w, f := DigitChar(d), Whole(text), Frac(text);
    AppendDigit(text, c);
    if HasPoint(text) {
      NatOfAppend(f, c);
      assert Pow10(|f + [c]|) == 10 * Pow10(|f|);
      ShiftedIn(NatOf(w), Pow10(|f|), NatOf(f), d);
    } else {
      NatOfAppend(w, c);
    }
  }

  lemma ShiftedOut(w: nat, p: nat, f: nat, d: nat)
    requires d <= 9
    ensures (w * (10 * p) + (f * 10 + d)) / 10 == w * p + f
  {
    ShiftedIn(w, p, f, d);
  }

  lemma NatOfSplit(s: string)
    requires AllDigits(s) && s != ""
    ensures NatOf(s) == NatOf(s[..|s| - 1]) * 10 + DigitOf(s[|s| - 1]) && DigitOf(s[|s| - 1]) <= 9
  {
  }

  /** Erasing a character of the text is erasing it from the number. */
  lemma HoldsShorter(text: string, e: Entry)
    requires Holds(text, e) && e.Shorter().places > 0
    ensures Holds(text[..|text| - 1], e.Shorter())
  {
    hide Whole, Frac, HasPoint, Signed, NatOf;
    var w, f := Whole(text), Frac(text);
    Reassembled(text);
    DropLastParts(text);
    if f != "" {
      NatOfSplit(f);
      assert Pow10(|f|) == 10 * Pow10(|f| - 1);
      ShiftedOut(NatOf(w), Pow10(|f| - 1), NatOf(f[..|f| - 1]), DigitOf(f[|f| - 1]));
    } else if !HasPoint(text) {
      NatOfSplit(w);
      NoFraction(NatOf(w));
      NoFraction(NatOf(w[..|w| - 1]));
    }
  }

  lemma NoFraction(n: nat)
    ensures NatOf("") == 0 && n * Pow10(0) + NatOf("") == n
  {
  }

  /** The texts that backspace wipes are silence and the bare negative zero. */
  lemma WipedTexts(text: string, e: Entry)
    requires Holds(text, e)
    ensures var t := text[..|text| - 1];
            t == "" || t == "-" || t == "-0" <==> e.Shorter().places == 0 || e.Shorter() == NEGATIVE_ZERO
  {
    hide Whole, Frac, HasPoint, Signed, NatOf, IsNumeral;
    NotNumerals();
    Reassembled(text);
    var t := text[..|text| - 1];
    if e.Shorter().places == 0 {
      DropLastParts(text);
    } else {
      HoldsShorter(text, e);
      OnlyNegativeZero(t, e.Shorter());
    }
  }

  lemma NotNumerals()
    ensures !IsNumeral("") && !IsNumeral("-")
  {
    assert Whole("") == "" && Whole("-") == "";
  }

  lemma OnlyNegativeZero(text: string, e: Entry)
    requires Holds(text, e)
    ensures text == "-0" <==> e == NEGATIVE_ZERO
  {
    Reassembled(text);
    PartsOf(true, "0", false, "");
    assert "-" + "0" + "" + "" == "-0";
    assert NatOf("0") == 0 by { NatOfAppend("", '0'); assert "" + ['0'] == "0"; }
    if e == NEGATIVE_ZERO {
      var w := Whole(text);
      assert Frac(text) == "" && NatOf("") == 0 && Pow10(0) == 1;
      NatOfSplit(w);
      assert w[..0] == "" && w == [w[0]];
    }
  }

  /** The engine's buffer and the listener move together; an operand erased to nothing leaves the engine at rest. */
  lemma EntryStep(ar: Arithmetic, s: CalcState, a: CalcAction, e: Entry)
    requires s.phase.Input? && Holds(s.input, e) && IsTypingKey(a)
    ensures var t, f := Press(ar, s, a), HeardNext(e, a);
            if f.places == 0 then t == s.(input := "", phase := Idle) && f == SILENCE
            else t == s.(input := t.input) && Holds(t.input, f)
  {
    hide Whole, Frac, HasPoint, NatOf;
    Reassembled(s.input);
    match a {
      case Digit(d) =>
        HoldsDigit(s.input, d, e);
      case DecimalPoint =>
        PointIsVisible(s.input);
        if !HasPoint(s.input) {
          AppendPoint(s.input);
        }
      case Backspace =>
        WipedTexts(s.input, e);
        if e.Shorter().places > 0 {
          HoldsShorter(s.input, e);
        }
      case PlusMinus =>
        FlipSign(s.input);
    }
  }

  /** The first key heard: a digit, or a point that counts as zero and a point; an erasure finds nothing. */
  lemma FirstKeyStep(ar: Arithmetic, s: CalcState, a: CalcAction)
    requires !s.phase.Error? && !s.phase.Input? && IsTypingKey(a) && !a.PlusMinus?
    ensures var t, f := Press(ar, s, a), HeardNext(SILENCE, a);
            if a.Backspace? then t == s && f == SILENCE
            else t == s.(input := t.input, phase := Input) && f.places > 0 && Holds(t.input, f)
  {
    hide Whole, Frac, HasPoint, Signed, IsNumeral;
    FirstKeys(if a.Digit? then a.d else 0);
    if a.Digit? {
      NatOfAppend("", DigitChar(a.d));
      assert [] + [DigitChar(a.d)] == [DigitChar(a.d)];
      assert Frac([DigitChar(a.d)]) == "" && NatOf("") == 0 && Pow10(0) == 1;
    } else {
      NatOfAppend("", '0');
      assert NatOf("0") == 0 by { assert "" + ['0'] == "0"; }
    }
  }

  lemma TypingPrefix(keys: seq<CalcAction>)
    requires IsTyping(keys) && keys != []
    ensures IsTyping(keys[..|keys| - 1]) && ValidKeys(keys)
  {
    var init := keys[..|keys| - 1];
    forall i | 0 <= i < |init| && init[i].PlusMinus?
      ensures Heard(init[..i]).places > 0
    {
      assert init[..i] == keys[..i] && keys[i] == init[i];
    }
  }

  /**
    Typing, with any erasures, leaves exactly the heard value in the buffer and touches nothing else; typing
    that was erased altogether leaves an empty buffer, at rest or as it was found.
   */
  lemma {:induction false} TypingEntry(ar: Arithmetic, s: CalcState, keys: seq<CalcAction>)
    requires IsTyping(keys) && !s.phase.Error? && !s.phase.Input?
    ensures ValidKeys(keys)
    ensures var t, e := PressAll(ar, s, keys), Heard(keys);
            if e.places == 0 then e == SILENCE && (t == s || t == s.(input := "", phase := Idle))
            else t == s.(input := t.input, phase := Input) && Holds(t.input, e)
  {
    if keys != [] {
      hide HeardNext, Press, Holds;
      var init, k := keys[..|keys| - 1], keys[|keys| - 1];
      TypingPrefix(keys);
      TypingEntry(ar, s, init);
      if Heard(init).places == 0 {
        FirstKeyStep(ar, PressAll(ar, s, init), k);
      } else {
        EntryStep(ar, PressAll(ar, s, init), k, Heard(init));
      }
    }
  }

  // ---------- the left-to-right evaluator ----------

  /** An operand as typed: abandoned attempts, each ended by C, and then the entry that counts. */
  datatype TypedOperand = TypedOperand(abandoned: seq<seq<CalcAction>>, entry: seq<CalcAction>)

  /** One link of a chain: a run of operator keys, of which the last counts, and the operand after it. */
  datatype Link = Link(ops: seq<BinaryOp>, operand: TypedOperand)

  ghost predicate WellTyped(o: TypedOperand) {
    && IsEntry(o.entry)
    && forall i | 0 <= i < |o.abandoned| :: IsTyping(o.abandoned[i])
  }

  /** Over a buffer already begun, the first attempt is one to be abandoned, and does not eat into that buffer. */
  ghost predicate StartsOver(s: CalcState, o: TypedOperand) {
    s.phase.Input? ==> o.abandoned != [] && Backspace !in o.abandoned[0]
  }

  ghost function Attempts(runs: seq<seq<CalcAction>>): seq<CalcAction> {
    if runs == [] then [] else runs[0] + [Clear] + Attempts(runs[1..])
  }

  ghost function OperandKeys(o: TypedOperand): seq<CalcAction> {
    Attempts(o.abandoned) + o.entry
  }

  ghost function OpKeys(ops: seq<BinaryOp>): (keys: seq<CalcAction>)
    ensures ValidKeys(keys)
  {
    seq(|ops|, i requires 0 <= i < |ops| => Operator(ops[i]))
  }

  ghost function ChainKeys(links: seq<Link>): seq<CalcAction> {
    if links == [] then [] else ChainKeys(links[..|links| - 1]) + LinkKeys(links[|links| - 1])
  }

  ghost function LinkKeys(l: Link): seq<CalcAction> {
    OpKeys(l.ops) + OperandKeys(l.operand)
  }

  ghost predicate WellTypedChain(links: seq<Link>) {
    forall i | 0 <= i < |links| :: links[i].ops != [] && WellTyped(links[i].operand)
  }

  ghost function Amount(o: TypedOperand): real
    requires WellTyped(o)
  {
    Heard(o.entry).Amount()
  }

  ghost function OpOf(l: Link): BinaryOp
    requires l.ops != []
  {
    l.ops[|l.ops| - 1]
  }

  /** The specification: apply the operators from left to right; a zero divisor has no value. */
  ghost function LeftFold(ar: Arithmetic, first: real, links: seq<Link>): Option<real>
    requires WellTypedChain(links)
  {
    if links == [] then Some(first)
    else
      var l := links[|links| - 1];
      match LeftFold(ar, first, links[..|links| - 1])
      case None => None
      case Some(v) =>
        if OpOf(l).Divide? && Amount(l.operand) == 0.0 then None else Some(ar.compute(OpOf(l), v, Amount(l.operand)))
  }

  ghost function Iterate(ar: Arithmetic, op: BinaryOp, rhs: real, v: real, n: nat): real {
    if n == 0 then v else ar.compute(op, Iterate(ar, op, rhs, v, n - 1), rhs)
  }

  lemma {:induction false} ErrorAbsorbs(ar: Arithmetic, s: CalcState, keys: seq<CalcAction>)
    requires s.phase.Error? && ValidKeys(keys) && AllClear !in keys
    ensures PressAll(ar, s, keys) == s
  {
    if keys != [] {
      assert keys[|keys| - 1] in keys;
      ErrorAbsorbs(ar, s, keys[..|keys| - 1]);
    }
  }

  /** On top of a buffer already begun, typing without erasures touches the buffer alone. */
  lemma {:induction false} TypingOnTop(ar: Arithmetic, s: CalcState, keys: seq<CalcAction>)
    requires BufferInv(s) && s.phase.Input? && IsTyping(keys) && Backspace !in keys
    ensures ValidKeys(keys)
    ensures var t := PressAll(ar, s, keys); BufferInv(t) && t == s.(input := t.input)
  {
    hide IsNumeral, HeardNext;
    if keys != [] {
      var init := keys[..|keys| - 1];
      TypingPrefix(keys);
      assert keys[|keys| - 1] in keys;
      TypingOnTop(ar, s, init);
      PressKeepsBuffer(ar, PressAll(ar, s, init), keys[|keys| - 1]);
    }
  }

  lemma AttemptIsForgotten(ar: Arithmetic, s: CalcState, run: seq<CalcAction>)
    requires BufferInv(s) && !s.phase.Error? && IsTyping(run) && (s.phase.Input? ==> Backspace !in run)
    ensures ValidKeys(run + [Clear]) && AllClear !in run
    ensures PressAll(ar, s, run + [Clear]) == s.(input := "", phase := Idle)
  {
    hide BufferInv, Heard, HeardNext, Holds;
    if s.phase.Input? {
      TypingOnTop(ar, s, run);
    } else {
      TypingEntry(ar, s, run);
    }
    assert (run + [Clear])[..|run + [Clear]| - 1] == run;
  }

  lemma {:induction false} AttemptsAreForgotten(ar: Arithmetic, s: CalcState, runs: seq<seq<CalcAction>>)
    requires BufferInv(s) && !s.phase.Error?
    requires forall i | 0 <= i < |runs| :: IsTyping(runs[i])
    requires s.phase.Input? && runs != [] ==> Backspace !in runs[0]
    ensures ValidKeys(Attempts(runs)) && AllClear !in Attempts(runs)
    ensures var t := PressAll(ar, s, Attempts(runs));
            if runs == [] then t == s else t == s.(input := "", phase := Idle)
    decreases |runs|
  {
    hide IsTyping, PressAll, IsNumeral, ValidAction;
    if runs == [] {
      PressNothing(ar, s);
    } else {
      AttemptIsForgotten(ar, s, runs[0]);
      AttemptsAreForgotten(ar, s.(input := "", phase := Idle), runs[1..]);
      PressAllConcat(ar, s, runs[0] + [Clear], Attempts(runs[1..]));
    }
  }

  lemma PressNothing(ar: Arithmetic, s: CalcState)
    ensures PressAll(ar, s, []) == s
  {
  }

  lemma TypingOperand(ar: Arithmetic, s: CalcState, o: TypedOperand)
    requires WellTyped(o) && BufferInv(s) && !s.phase.Error? && StartsOver(s, o)
    ensures ValidKeys(OperandKeys(o)) && AllClear !in OperandKeys(o)
    ensures var t := PressAll(ar, s, OperandKeys(o));
            t == s.(input := t.input, phase := Input) && IsNumeral(t.input) && DecimalValue(t.input) == Amount(o)
  {
    AttemptsAreForgotten(ar, s, o.abandoned);
    var u := PressAll(ar, s, Attempts(o.abandoned));
    TypingEntry(ar, u, o.entry);
    PressAllConcat(ar, s, Attempts(o.abandoned), o.entry);
    HoldsMeansValue(PressAll(ar, u, o.entry).input, Heard(o.entry));
  }

  // ---------- what an operator takes along ----------

  /**
    The value an operator key takes along: what is accumulated while no operand has been given, and otherwise the
    operand, combined by the operator that waits for it; none when that divides by zero.
   */
  ghost function Carried(ar: Arithmetic, s: CalcState): Option<real> {
    if s.phase.Idle? || s.phase.OpPending? then Some(s.acc)
    else if s.pending == None then Some(Operand(s))
    else if s.pending.value.Divide? && Operand(s) == 0.0 then None
    else Some(ar.compute(s.pending.value, s.acc, Operand(s)))
  }

  ghost function SymbolText(op: BinaryOp): string {
    match op
    case Add => "+"
    case Subtract => "-"
    case Multiply => "\U{00d7}"
    case Divide => "\U{00f7}"
  }

  ghost function OperatorText(ar: Arithmetic, v: real, op: BinaryOp): string {
    ar.show(v) + " " + SymbolText(op)
  }

  ghost function EquationText(ar: Arithmetic, lhs: real, op: BinaryOp, rhs: real): string {
    ar.show(lhs) + " " + SymbolText(op) + " " + ar.show(rhs) + " = "
  }

  const ZERO_DIVISOR_TEXT := "不能除以零"

  /** One operator key. Only from rest does it leave the history line alone. */
  lemma {:induction false} OperatorStep(ar: Arithmetic, s: CalcState, op: BinaryOp)
    requires BufferInv(s) && !s.phase.Error?
    ensures var t := PressOperator(ar, s, op);
            if Carried(ar, s) == None then t == s.(phase := Error, history := ZERO_DIVISOR_TEXT)
            else
              var v := Carried(ar, s).value;
              t == s.(acc := v, input := "", pending := Some(op), phase := OpPending, markup := NoMarkup,
                      history := if s.phase.Idle? then s.history else OperatorText(ar, v, op))
  {
    hide IsNumeral;
    assert op.Symbol() == SymbolText(op);
  }

  /** Of a run of operators the first one settles the value and the last one is kept. */
  lemma {:induction false} OperatorRun(ar: Arithmetic, s: CalcState, ops: seq<BinaryOp>)
    requires ops != [] && BufferInv(s) && !s.phase.Error?
    ensures var t := PressAll(ar, s, OpKeys(ops));
            if Carried(ar, s) == None then t == s.(phase := Error, history := ZERO_DIVISOR_TEXT)
            else
              var v, op := Carried(ar, s).value, ops[|ops| - 1];
              t == s.(acc := v, input := "", pending := Some(op), phase := OpPending, markup := NoMarkup,
                      history := if s.phase.Idle? && |ops| == 1 then s.history else OperatorText(ar, v, op))
  {
    hide IsNumeral, PressOperator, OperatorText;
    var init, op := ops[..|ops| - 1], ops[|ops| - 1];
    assert OpKeys(ops)[..|ops| - 1] == OpKeys(init);
    if init == [] {
      assert PressAll(ar, s, OpKeys(init)) == s;
      OperatorStep(ar, s, op);
    } else {
      OperatorRun(ar, s, init);
      if Carried(ar, s).Some? {
        OperatorStep(ar, PressAll(ar, s, OpKeys(init)), op);
      } else {
        assert PressOperator(ar, PressAll(ar, s, OpKeys(init)), op) == PressAll(ar, s, OpKeys(init)) by {
          ErrorIgnoresOperator(ar, PressAll(ar, s, OpKeys(init)), op);
        }
      }
    }
  }

  lemma ErrorIgnoresOperator(ar: Arithmetic, s: CalcState, op: BinaryOp)
    requires s.phase.Error?
    ensures PressOperator(ar, s, op) == s
  {
  }

  lemma {:induction false} LinkKeysAreValid(l: Link)
    requires l.ops != [] && WellTyped(l.operand)
    ensures ValidKeys(OperandKeys(l.operand)) && AllClear !in OperandKeys(l.operand)
    ensures ValidKeys(LinkKeys(l)) && AllClear !in LinkKeys(l)
  {
    hide WellTyped, OperandKeys;
    var any := Arithmetic((_, _, _) => 0.0, _ => None, _ => "");
    assert BufferInv(FRESH);
    TypingOperand(any, FRESH, l.operand);
  }

  /** One link: the operator run settles what was waiting, and the new operand waits in its place. */
  lemma {:induction false} LinkStep(ar: Arithmetic, u: CalcState, l: Link)
    requires BufferInv(u) && !u.phase.Error? && l.ops != [] && WellTyped(l.operand)
    ensures ValidKeys(LinkKeys(l)) && AllClear !in LinkKeys(l)
    ensures var t := PressAll(ar, u, LinkKeys(l));
            if Carried(ar, u) == None then t.phase.Error? && t.history == ZERO_DIVISOR_TEXT
            else && t.phase.Input? && t.markup.NoMarkup? && IsNumeral(t.input)
                 && t.acc == Carried(ar, u).value && t.pending == Some(OpOf(l))
                 && DecimalValue(t.input) == Amount(l.operand)
  {
    hide Carried, OperatorText, DecimalValue, IsNumeral, Amount, WellTyped, OperandKeys, OpKeys, PressAll;
    LinkKeysAreValid(l);
    OperatorRun(ar, u, l.ops);
    PressAllConcat(ar, u, OpKeys(l.ops), OperandKeys(l.operand));
    if Carried(ar, u) == None {
      ErrorAbsorbs(ar, PressAll(ar, u, OpKeys(l.ops)), OperandKeys(l.operand));
    } else {
      TypingOperand(ar, PressAll(ar, u, OpKeys(l.ops)), l.operand);
    }
  }

  /** Before the final `=`: the last operator still waits, with the fold so far and its operand. */
  ghost predicate Awaits(ar: Arithmetic, t: CalcState, first: real, links: seq<Link>)
    requires WellTypedChain(links)
  {
    if t.phase.Error? then LeftFold(ar, first, links) == None && t.history == ZERO_DIVISOR_TEXT
    else && t.phase.Input? && t.markup.NoMarkup? && IsNumeral(t.input)
         && Carried(ar, t) == LeftFold(ar, first, links)
         && (if links == [] then t.pending == None
             else && t.pending == Some(OpOf(links[|links| - 1]))
                  && DecimalValue(t.input) == Amount(links[|links| - 1].operand)
                  && Some(t.acc) == LeftFold(ar, first, links[..|links| - 1]))
  }

  lemma {:induction false} AwaitsNext(ar: Arithmetic, u: CalcState, first: real, links: seq<Link>)
    requires links != [] && WellTypedChain(links) && Awaits(ar, u, first, links[..|links| - 1])
    ensures ValidKeys(LinkKeys(links[|links| - 1]))
    ensures Awaits(ar, PressAll(ar, u, LinkKeys(links[|links| - 1])), first, links)
  {
    hide DecimalValue, IsNumeral, Amount, WellTyped, PressAll, LinkKeys;
    var l := links[|links| - 1];
    LinkKeysAreValid(l);
    EmptyIsNoNumeral();
    if u.phase.Error? {
      ErrorAbsorbs(ar, u, LinkKeys(l));
    } else {
      LinkStep(ar, u, l);
    }
  }

  lemma {:induction false} ChainAwaits(ar: Arithmetic, s: CalcState, first: real, links: seq<Link>)
    requires WellTypedChain(links) && Awaits(ar, s, first, [])
    ensures ValidKeys(ChainKeys(links)) && Awaits(ar, PressAll(ar, s, ChainKeys(links)), first, links)
  {
    if links == [] {
    } else {
      var init := links[..|links| - 1];
      ChainAwaits(ar, s, first, init);
      AwaitsNext(ar, PressAll(ar, s, ChainKeys(init)), first, links);
      PressAllConcat(ar, s, ChainKeys(init), LinkKeys(links[|links| - 1]));
    }
  }

  /** The states a calculation may start from. */
  ghost predicate Ready(s: CalcState, first: TypedOperand) {
    && BufferInv(s) && !s.phase.Error? && s.pending == None && s.markup.NoMarkup?
    && WellTyped(first) && StartsOver(s, first)
  }

  lemma FirstOperandAwaits(ar: Arithmetic, s: CalcState, first: TypedOperand)
    requires Ready(s, first)
    ensures ValidKeys(OperandKeys(first))
    ensures Awaits(ar, PressAll(ar, s, OperandKeys(first)), Amount(first), [])
  {
    TypingOperand(ar, s, first);
  }

  ghost function Again(n: nat): (keys: seq<CalcAction>)
    ensures ValidKeys(keys) && |keys| == n
  {
    seq(n, _ => Equals)
  }

  lemma {:induction false} RepeatedEquals(ar: Arithmetic, t: CalcState, n: nat)
    requires t.phase.Evaluated? && t.markup.NoMarkup? && t.input == "" && t.pending == None && t.lastOp.Some?
    requires t.lastOp.value.Divide? ==> t.lastOperand != 0.0
    ensures var u, op, rhs := PressAll(ar, t, Again(n)), t.lastOp.value, t.lastOperand;
            u == t.(acc := Iterate(ar, op, rhs, t.acc, n),
                    history := if n == 0 then t.history
                               else EquationText(ar, Iterate(ar, op, rhs, t.acc, n - 1), op, rhs))
  {
    if n > 0 {
      assert t.lastOp.value.Symbol() == SymbolText(t.lastOp.value);
      assert Again(n)[..n - 1] == Again(n - 1);
      RepeatedEquals(ar, t, n - 1);
    }
  }

  /** What the last `=` applied its operator to: the fold before the last link, or the result before it. */
  ghost function LastLeft(ar: Arithmetic, first: real, links: seq<Link>, again: nat): real
    requires links != [] && WellTypedChain(links) && LeftFold(ar, first, links).Some?
  {
    var l := links[|links| - 1];
    if again == 0 then LeftFold(ar, first, links[..|links| - 1]).value
    else Iterate(ar, OpOf(l), Amount(l.operand), LeftFold(ar, first, links).value, again - 1)
  }

  /** After the first `=` and `again` more of them: the value, the display and the history line. */
  ghost predicate Settled(ar: Arithmetic, t: CalcState, first: real, links: seq<Link>, again: nat)
    requires WellTypedChain(links)
  {
    match LeftFold(ar, first, links)
    case None => Shown(ar, t).isError && Shown(ar, t).display == "错误" && Shown(ar, t).history == ZERO_DIVISOR_TEXT
    case Some(v) =>
      && t.phase.Evaluated? && t.pending == None && t.markup.NoMarkup?
      && (links == [] ==> Operand(t) == v && Shown(ar, t).display == t.input)
      && (links != [] ==>
            var l := links[|links| - 1];
            var shown := Iterate(ar, OpOf(l), Amount(l.operand), v, again);
            && Operand(t) == shown && Shown(ar, t).display == ar.show(shown)
            && Shown(ar, t).history
               == EquationText(ar, LastLeft(ar, first, links, again), OpOf(l), Amount(l.operand)))
  }

  /** The `=` that ends a chain. */
  lemma {:induction false} FirstEquals(ar: Arithmetic, t: CalcState, first: real, links: seq<Link>)
    requires WellTypedChain(links) && links != [] && Awaits(ar, t, first, links) && !t.phase.Error?
    ensures var u, l := PressEquals(ar, t), links[|links| - 1];
            match LeftFold(ar, first, links)
            case None => u.phase.Error? && u.history == ZERO_DIVISOR_TEXT
            case Some(v) =>
              && u.phase.Evaluated? && u.pending == None && u.markup.NoMarkup? && u.input == "" && u.acc == v
              && u.lastOp == Some(OpOf(l)) && u.lastOperand == Amount(l.operand)
              && (OpOf(l).Divide? ==> Amount(l.operand) != 0.0)
              && u.history
                 == EquationText(ar, LeftFold(ar, first, links[..|links| - 1]).value, OpOf(l), Amount(l.operand))
  {
    hide DecimalValue, Amount;
    var l := links[|links| - 1];
    assert OpOf(l).Symbol() == SymbolText(OpOf(l));
  }

  lemma {:induction false} SettlesAfterEquals(ar: Arithmetic, t: CalcState, first: real, links: seq<Link>, again: nat)
    requires WellTypedChain(links) && Awaits(ar, t, first, links)
    ensures Settled(ar, PressAll(ar, PressAll(ar, t, [Equals]), Again(again)), first, links, again)
  {
    hide EquationText, Amount;
    assert PressAll(ar, t, [Equals]) == Press(ar, PressAll(ar, t, []), Equals);
    var u := PressEquals(ar, t);
    if t.phase.Error? {
      ErrorAbsorbs(ar, u, Again(again));
    } else if links == [] {
      EqualsIdles(ar, u, Again(again));
    } else {
      hide Awaits, PressEquals, IsNumeral;
      FirstEquals(ar, t, first, links);
      if u.phase.Error? {
        ErrorAbsorbs(ar, u, Again(again));
      } else {
        RepeatedEquals(ar, u, again);
        EmptyIsNoNumeral();
      }
    }
  }

  /**
    The engine refines the left-to-right evaluator. From any error-free state without a pending operator
    or markup context, typing an operand, a chain of links, and `=` shows the fold, or the error exactly
    when the fold divides by zero; each further `=` applies the last operator and operand once more.
   */
  lemma {:induction false} RefinesLeftFold(
    ar: Arithmetic, s: CalcState, first: TypedOperand, links: seq<Link>, again: nat)
    requires Ready(s, first) && WellTypedChain(links)
    ensures var keys := OperandKeys(first) + ChainKeys(links) + [Equals] + Again(again);
            ValidKeys(keys) && Settled(ar, PressAll(ar, s, keys), Amount(first), links, again)
  {
    hide Awaits, Settled, Amount;
    var a, b := OperandKeys(first), ChainKeys(links);
    FirstOperandAwaits(ar, s, first);
    ChainAwaits(ar, PressAll(ar, s, a), Amount(first), links);
    PressAllConcat(ar, s, a, b);
    EndsWithEquals(ar, s, a + b, again);
    SettlesAfterEquals(ar, PressAll(ar, s, a + b), Amount(first), links, again);
  }

  lemma {:induction false} EndsWithEquals(ar: Arithmetic, s: CalcState, keys: seq<CalcAction>, again: nat)
    requires ValidKeys(keys)
    ensures ValidKeys(keys + [Equals] + Again(again))
    ensures PressAll(ar, s, keys + [Equals] + Again(again))
         == PressAll(ar, PressAll(ar, PressAll(ar, s, keys), [Equals]), Again(again))
  {
    PressAllConcat(ar, s, keys, [Equals]);
    PressAllConcat(ar, s, keys + [Equals], Again(again));
  }

  // ---------- going on from a result ----------

  lemma {:induction false} OneLinkAwaits(ar: Arithmetic, t: CalcState, first: real, links: seq<Link>)
    requires |links| == 1 && WellTypedChain(links)
    requires t.phase.Input? && t.markup.NoMarkup? && IsNumeral(t.input) && t.acc == first
    requires t.pending == Some(OpOf(links[0])) && DecimalValue(t.input) == Amount(links[0].operand)
    ensures Awaits(ar, t, first, links)
  {
    hide DecimalValue, Amount, IsNumeral;
    assert links[..0] == [];
    assert LeftFold(ar, first, links[..0]) == Some(first);
  }

  lemma {:induction false} ChainKeysAreValid(ar: Arithmetic, links: seq<Link>)
    requires WellTypedChain(links)
    ensures ValidKeys(ChainKeys(links)) && AllClear !in ChainKeys(links)
  {
    hide WellTyped, LinkKeys;
    if links != [] {
      ChainKeysAreValid(ar, links[..|links| - 1]);
      assert BufferInv(FRESH);
      LinkStep(ar, FRESH, links[|links| - 1]);
    }
  }

  ghost predicate Follows(ar: Arithmetic, t: CalcState, carried: Option<real>, links: seq<Link>)
    requires WellTypedChain(links)
  {
    if carried == None then t.phase.Error? && t.history == ZERO_DIVISOR_TEXT else Awaits(ar, t, carried.value, links)
  }

  lemma {:induction false} FollowsNext(ar: Arithmetic, u: CalcState, carried: Option<real>, links: seq<Link>)
    requires links != [] && WellTypedChain(links) && Follows(ar, u, carried, links[..|links| - 1])
    ensures ValidKeys(LinkKeys(links[|links| - 1]))
    ensures Follows(ar, PressAll(ar, u, LinkKeys(links[|links| - 1])), carried, links)
  {
    hide Awaits, LinkKeys;
    if carried == None {
      assert BufferInv(FRESH);
      LinkStep(ar, FRESH, links[|links| - 1]);
      ErrorAbsorbs(ar, u, LinkKeys(links[|links| - 1]));
    } else {
      AwaitsNext(ar, u, carried.value, links);
    }
  }

  lemma {:induction false} FollowsOne(ar: Arithmetic, s: CalcState, links: seq<Link>)
    requires BufferInv(s) && !s.phase.Error? && |links| == 1 && WellTypedChain(links)
    ensures ValidKeys(ChainKeys(links)) && Follows(ar, PressAll(ar, s, ChainKeys(links)), Carried(ar, s), links)
  {
    hide DecimalValue, IsNumeral, Awaits, Carried, LinkKeys, BufferInv;
    LinkStep(ar, s, links[0]);
    assert links[..0] == [] && ChainKeys(links[..0]) == [];
    assert ChainKeys(links) == [] + LinkKeys(links[0]) == LinkKeys(links[0]);
    if Carried(ar, s).Some? {
      OneLinkAwaits(ar, PressAll(ar, s, LinkKeys(links[0])), Carried(ar, s).value, links);
    }
  }

  lemma {:induction false} ChainFollows(ar: Arithmetic, s: CalcState, links: seq<Link>)
    requires BufferInv(s) && !s.phase.Error? && links != [] && WellTypedChain(links)
    ensures ValidKeys(ChainKeys(links)) && Follows(ar, PressAll(ar, s, ChainKeys(links)), Carried(ar, s), links)
  {
    hide Follows, Carried, LinkKeys, BufferInv, PressAll;
    if |links| == 1 {
      FollowsOne(ar, s, links);
    } else {
      var init := links[..|links| - 1];
      ChainFollows(ar, s, init);
      FollowsNext(ar, PressAll(ar, s, ChainKeys(init)), Carried(ar, s), links);
      PressAllConcat(ar, s, ChainKeys(init), LinkKeys(links[|links| - 1]));
    }
  }

  /**
    From any error-free state, typed, evaluated or at rest, a chain of links that opens with an operator and `=`
    evaluate from left to right over the value that operator takes along: the result after `=`, what is accumulated
    at rest or behind another operator.
   */
  lemma {:induction false} ContinuesTheFold(ar: Arithmetic, s: CalcState, links: seq<Link>, again: nat)
    requires BufferInv(s) && !s.phase.Error? && links != [] && WellTypedChain(links)
    ensures var keys := ChainKeys(links) + [Equals] + Again(again);
            && ValidKeys(keys)
            && var t := PressAll(ar, s, keys);
               if Carried(ar, s) == None then t.phase.Error? && t.history == ZERO_DIVISOR_TEXT
               else Settled(ar, t, Carried(ar, s).value, links, again)
  {
    hide Awaits, Settled, Carried;
    ChainFollows(ar, s, links);
    EndsWithEquals(ar, s, ChainKeys(links), again);
    var t := PressAll(ar, s, ChainKeys(links));
    if Carried(ar, s) == None {
      PressAllConcat(ar, t, [Equals], Again(again));
      ErrorAbsorbs(ar, t, [Equals] + Again(again));
    } else {
      SettlesAfterEquals(ar, t, Carried(ar, s).value, links, again);
    }
  }

  lemma {:induction false} LeftFoldConcat(ar: Arithmetic, first: real, a: seq<Link>, b: seq<Link>)
    requires WellTypedChain(a) && WellTypedChain(b)
    ensures WellTypedChain(a + b)
    ensures LeftFold(ar, first, a + b)
         == if LeftFold(ar, first, a) == None then None else LeftFold(ar, LeftFold(ar, first, a).value, b)
    decreases |b|
  {
    hide Amount;
    if b == [] {
      assert a + b == a;
    } else {
      LeftFoldConcat(ar, first, a, b[..|b| - 1]);
      assert (a + b)[..|a + b| - 1] == a + b[..|b| - 1];
    }
  }

  lemma {:induction false} KeysKeepBuffer(ar: Arithmetic, s: CalcState, keys: seq<CalcAction>)
    requires BufferInv(s) && ValidKeys(keys)
    ensures BufferInv(PressAll(ar, s, keys))
  {
    hide BufferInv;
    if keys != [] {
      KeysKeepBuffer(ar, s, keys[..|keys| - 1]);
      PressKeepsBuffer(ar, PressAll(ar, s, keys[..|keys| - 1]), keys[|keys| - 1]);
    }
  }

  /** A settled result is what the next operator takes along. */
  lemma {:induction false} ResultIsCarried(ar: Arithmetic, t: CalcState, first: real, links: seq<Link>)
    requires WellTypedChain(links) && Settled(ar, t, first, links, 0)
    ensures if t.phase.Error? then LeftFold(ar, first, links) == None && t.history == ZERO_DIVISOR_TEXT
            else Carried(ar, t) == LeftFold(ar, first, links)
  {
    hide IsNumeral, Amount, EquationText;
  }

  /** The value and display of a fold whose last link is `l`, after `again` further `=`. */
  ghost predicate ShowsFold(ar: Arithmetic, t: CalcState, fold: Option<real>, l: Link, again: nat)
    requires l.ops != [] && WellTyped(l.operand)
  {
    match fold
    case None => Shown(ar, t).isError && t.history == ZERO_DIVISOR_TEXT
    case Some(v) =>
      var shown := Iterate(ar, OpOf(l), Amount(l.operand), v, again);
      t.phase.Evaluated? && Operand(t) == shown && Shown(ar, t).display == ar.show(shown)
  }

  lemma {:induction false} SettledShows(ar: Arithmetic, t: CalcState, first: real, links: seq<Link>, again: nat)
    requires WellTypedChain(links) && links != [] && Settled(ar, t, first, links, again)
    ensures ShowsFold(ar, t, LeftFold(ar, first, links), links[|links| - 1], again)
  {
    hide IsNumeral, Amount, EquationText;
  }

  lemma {:induction false} SecondChain(
    ar: Arithmetic, u: CalcState, first: real, a: seq<Link>, b: seq<Link>, again: nat)
    requires BufferInv(u) && WellTypedChain(a) && WellTypedChain(b) && b != [] && Settled(ar, u, first, a, 0)
    ensures ValidKeys(ChainKeys(b) + [Equals] + Again(again)) && WellTypedChain(a + b)
    ensures ShowsFold(ar, PressAll(ar, u, ChainKeys(b) + [Equals] + Again(again)),
                      LeftFold(ar, first, a + b), b[|b| - 1], again)
  {
    hide Carried, Amount, Settled, BufferInv, PressAll, ChainKeys, WellTyped;
    LeftFoldConcat(ar, first, a, b);
    ResultIsCarried(ar, u, first, a);
    ChainKeysAreValid(ar, b);
    var keys := ChainKeys(b) + [Equals] + Again(again);
    if u.phase.Error? {
      ErrorAbsorbs(ar, u, keys);
    } else {
      ContinuesTheFold(ar, u, b, again);
      if Carried(ar, u).Some? {
        SettledShows(ar, PressAll(ar, u, keys), Carried(ar, u).value, b, again);
      }
    }
  }

  /** Two chains joined by `=` are one: the second goes on from what the first one shows. */
  lemma {:induction false} EqualsJoinsChains(
    ar: Arithmetic, s: CalcState, first: TypedOperand, a: seq<Link>, b: seq<Link>, again: nat)
    requires Ready(s, first) && WellTypedChain(a) && WellTypedChain(b) && b != []
    ensures var one, two := OperandKeys(first) + ChainKeys(a) + [Equals], ChainKeys(b) + [Equals] + Again(again);
            && ValidKeys(one + two) && WellTypedChain(a + b)
            && ShowsFold(ar, PressAll(ar, s, one + two), LeftFold(ar, Amount(first), a + b), b[|b| - 1], again)
  {
    hide Amount, Settled, ShowsFold, PressAll, ChainKeys, OperandKeys, WellTyped;
    var one, two := OperandKeys(first) + ChainKeys(a) + [Equals], ChainKeys(b) + [Equals] + Again(again);
    RefinesLeftFold(ar, s, first, a, 0);
    assert one + Again(0) == one;
    KeysKeepBuffer(ar, s, one);
    SecondChain(ar, PressAll(ar, s, one), Amount(first), a, b, again);
    PressAllConcat(ar, s, one, two);
  }

  /**
    An operator and `=` with no operand between them use the carried value twice, and each further `=` applies it
    once more.
   */
  lemma {:induction false} EqualsRightAfterOperator(ar: Arithmetic, s: CalcState, ops: seq<BinaryOp>, again: nat)
    requires BufferInv(s) && !s.phase.Error? && ops != [] && Carried(ar, s).Some?
    ensures var v, op := Carried(ar, s).value, ops[|ops| - 1];
            var t := PressAll(ar, s, OpKeys(ops) + [Equals] + Again(again));
            if op.Divide? && v == 0.0 then Shown(ar, t).isError && t.history == ZERO_DIVISOR_TEXT
            else
              var shown := Iterate(ar, op, v, ar.compute(op, v, v), again);
              t.phase.Evaluated? && Operand(t) == shown && Shown(ar, t).display == ar.show(shown)
  {
    hide Carried, IsNumeral, EquationText, OperatorText;
    OperatorRun(ar, s, ops);
    EndsWithEquals(ar, s, OpKeys(ops), again);
    var t := PressAll(ar, s, OpKeys(ops));
    assert PressAll(ar, t, [Equals]) == Press(ar, PressAll(ar, t, []), Equals);
    var u := PressEquals(ar, t);
    EmptyIsNoNumeral();
    if u.phase.Error? {
      ErrorAbsorbs(ar, u, Again(again));
    } else {
      RepeatedEquals(ar, u, again);
    }
  }

  lemma {:induction false} EqualsIdles(ar: Arithmetic, t: CalcState, keys: seq<CalcAction>)
    requires t.phase.Evaluated? && t.markup.NoMarkup? && t.lastOp == None
    requires forall i | 0 <= i < |keys| :: keys[i] == Equals
    ensures ValidKeys(keys) && PressAll(ar, t, keys) == t
  {
    if keys != [] {
      EqualsIdles(ar, t, keys[..|keys| - 1]);
    }
  }

  // ---------- the memory ledger ----------

  /** The signed operands of the effective M+ and M- presses since the last effective MC or AC. */
  ghost function Ledger(ar: Arithmetic, s: CalcState, keys: seq<CalcAction>): seq<(BinaryOp, real)>
    requires ValidKeys(keys)
  {
    if keys == [] then []
    else
      var init := keys[..|keys| - 1];
      var before := PressAll(ar, s, init);
      match keys[|keys| - 1]
      case AllClear => []
      case k =>
        if before.phase.Error? then Ledger(ar, s, init)
        else if k.MemoryClear? then []
        else if k.MemoryAdd? then Ledger(ar, s, init) + [(Add, Operand(before))]
        else if k.MemorySubtract? then Ledger(ar, s, init) + [(Subtract, Operand(before))]
        else Ledger(ar, s, init)
  }

  ghost function Posted(ar: Arithmetic, entries: seq<(BinaryOp, real)>): real {
    if entries == [] then 0.0
    else ar.compute(entries[|entries| - 1].0, Posted(ar, entries[..|entries| - 1]), entries[|entries| - 1].1)
  }

  ghost function SignedSum(entries: seq<(BinaryOp, real)>): real {
    if entries == [] then 0.0
    else SignedSum(entries[..|entries| - 1])
         + (if entries[|entries| - 1].0.Subtract? then -entries[|entries| - 1].1 else entries[|entries| - 1].1)
  }

  ghost predicate ExactSums(ar: Arithmetic) {
    forall x, y :: ar.compute(Add, x, y) == x + y && ar.compute(Subtract, x, y) == x - y
  }

  lemma {:induction false} PostedIsSum(ar: Arithmetic, entries: seq<(BinaryOp, real)>)
    requires ExactSums(ar) && forall i | 0 <= i < |entries| :: entries[i].0.Add? || entries[i].0.Subtract?
    ensures Posted(ar, entries) == SignedSum(entries)
  {
    if entries != [] {
      PostedIsSum(ar, entries[..|entries| - 1]);
    }
  }

  /** One key's effect on the memory cell. */
  lemma MemoryStep(ar: Arithmetic, s: CalcState, a: CalcAction)
    requires ValidAction(a)
    ensures Press(ar, s, a).memory ==
            if a.AllClear? then 0.0
            else if s.phase.Error? then s.memory
            else if a.MemoryClear? then 0.0
            else if a.MemoryAdd? then ar.compute(Add, s.memory, Operand(s))
            else if a.MemorySubtract? then ar.compute(Subtract, s.memory, Operand(s))
            else s.memory
  {
  }

  lemma {:induction false} LedgerBalances(ar: Arithmetic, s: CalcState, keys: seq<CalcAction>)
    requires ValidKeys(keys) && s.memory == 0.0
    ensures PressAll(ar, s, keys).memory == Posted(ar, Ledger(ar, s, keys))
    ensures forall e | e in Ledger(ar, s, keys) :: e.0.Add? || e.0.Subtract?
  {
    if keys != [] {
      var init, entries := keys[..|keys| - 1], Ledger(ar, s, keys);
      LedgerBalances(ar, s, init);
      MemoryStep(ar, PressAll(ar, s, init), keys[|keys| - 1]);
      if |entries| == |Ledger(ar, s, init)| + 1 {
        assert entries[..|entries| - 1] == Ledger(ar, s, init);
      }
    }
  }

  /** Memory is the signed sum of its ledger, and the M indicator is lit exactly when that sum is not zero. */
  lemma MemoryIsSignedSum(ar: Arithmetic, keys: seq<CalcAction>)
    requires ValidKeys(keys) && ExactSums(ar)
    ensures var t, sum := PressAll(ar, FRESH, keys), SignedSum(Ledger(ar, FRESH, keys));
            && t.memory == sum
            && Shown(ar, t).memoryIndicator == if sum != 0.0 then "M" else ""
  {
    LedgerBalances(ar, FRESH, keys);
    PostedIsSum(ar, Ledger(ar, FRESH, keys));
  }
}
