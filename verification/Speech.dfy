/** Chinese number speech: the printer of voice indices, and the listener that understands them. */
module Speech {
  import opened Tokens
  import opened Numerals

  // Indices of the recorded words; 0 to 9 are the digits themselves.
  const LING := 0
  const SHI := 10
  const BAI := 11
  const QIAN := 12
  const WAN := 13
  const YI_UNIT := 14
  const DIAN := 19
  const NEGATIVE := 25

  // ---------- what is said ----------

  predicate Digits(d: seq<nat>) {
    forall i | 0 <= i < |d| :: d[i] <= 9
  }

  predicate AllZero(d: seq<nat>) {
    forall i | 0 <= i < |d| :: d[i] == 0
  }

  function Ones(d: nat): seq<nat> {
    if d != 0 then [d] else []
  }

  function TensAndOnes(t: nat, o: nat): seq<nat> {
    (if t != 0 then [t, SHI] else if o != 0 then [LING] else []) + Ones(o)
  }

  function BelowThousand(h: nat, t: nat, o: nat): seq<nat> {
    if h != 0 then [h, BAI] + TensAndOnes(t, o)
    else if t != 0 then [LING] + TensAndOnes(t, o)
    else TensAndOnes(t, o)
  }

  /** One group of up to four digits; a leading group of two elides the one before the ten. */
  function GroupWords(g: seq<nat>, leading: bool): seq<nat> {
    if |g| == 4 then [g[0], QIAN] + BelowThousand(g[1], g[2], g[3])
    else if |g| == 3 then [g[0], BAI] + TensAndOnes(g[1], g[2])
    else if |g| == 2 then (if g[0] == 1 && leading then [SHI] else [g[0], SHI]) + Ones(g[1])
    else if |g| == 1 then [g[0]]
    else []
  }

  /** What follows a closed group: nothing if it is all zeros, and a filler zero if it opens with one. */
  function TailWords(d: seq<nat>): seq<nat>
    requires d != []
    decreases |d|, 1
  {
    if AllZero(d) then [] else (if d[0] == 0 then [LING] else []) + WanWords(d, false)
  }

  function WanWords(d: seq<nat>, leading: bool): seq<nat>
    decreases |d|, 0
  {
    if |d| <= 4 then GroupWords(d, leading)
    else GroupWords(d[..|d| - 4], false) + [WAN] + TailWords(d[|d| - 4..])
  }

  function IntegerWords(d: seq<nat>): seq<nat> {
    if d == [] then [LING]
    else if |d| > 12 then d
    else if |d| <= 8 then WanWords(d, |d| <= 4)
    else GroupWords(d[..|d| - 8], false) + [YI_UNIT] + TailWords(d[|d| - 8..])
  }

  function DigitsOf(s: string): (d: seq<nat>)
    requires AllDigits(s)
    ensures |d| == |s| && Digits(d)
  {
    seq(|s|, i requires 0 <= i < |s| => DigitOf(s[i]))
  }

  function NumberWords(minus: bool, whole: seq<nat>, frac: seq<nat>): seq<nat> {
    (if minus then [NEGATIVE] else []) + IntegerWords(whole) + (if frac == [] then [] else [DIAN] + frac)
  }

  function SpokenWords(s: string): seq<nat>
    requires AllDigits(Whole(s)) && AllDigits(Frac(s))
  {
    NumberWords(Signed(s), DigitsOf(Whole(s)), DigitsOf(Frac(s)))
  }

  // ---------- the speaker ----------

  method SpeakTensAndOnes(t: nat, o: nat, out: seq<nat>) returns (res: seq<nat>)
    ensures res == out + TensAndOnes(t, o)
  {
    res := out;
    if t != 0 {
      res := res + [t];
      res := res + [SHI];
    } else if o != 0 {
      res := res + [LING];
    }
    if o != 0 { res := res + [o]; }
  }

  method SpeakBelowThousand(h: nat, t: nat, o: nat, out: seq<nat>) returns (res: seq<nat>)
    ensures res == out + BelowThousand(h, t, o)
  {
    hide TensAndOnes;
    res := out;
    if h != 0 {
      res := res + [h, BAI];
    } else if t != 0 {
      res := res + [LING];
    }
    res := SpeakTensAndOnes(t, o, res);
  }

  method SpeakGroup(group: seq<nat>, out: seq<nat>, isLeading: bool) returns (res: seq<nat>)
    ensures res == out + GroupWords(group, isLeading)
  {
    hide TensAndOnes, BelowThousand;
    if |group| == 4 {
      res := out + [group[0], QIAN];
      res := SpeakBelowThousand(group[1], group[2], group[3], res);
    } else if |group| == 3 {
      res := out + [group[0], BAI];
      res := SpeakTensAndOnes(group[1], group[2], res);
    } else if |group| == 2 {
      res := out + if group[0] == 1 && isLeading then [SHI] else [group[0], SHI];
      if group[1] != 0 { res := res + [group[1]]; }
    } else if |group| == 1 {
      res := out + [group[0]];
    } else {
      res := out;
    }
  }

  method SpeakWan(digits: seq<nat>, out: seq<nat>, isLeading: bool) returns (res: seq<nat>)
    requires |digits| <= 8
    ensures res == out + WanWords(digits, isLeading)
  {
    hide GroupWords;
    if |digits| <= 4 {
      res := SpeakGroup(digits, out, isLeading);
      return;
    }
    var low := digits[|digits| - 4..];
    res := SpeakGroup(digits[..|digits| - 4], out, false);
    res := res + [WAN];
    if AllZero(low) { return; }
    if low[0] == 0 { res := res + [LING]; }
    res := SpeakGroup(low, res, false);
    assert WanWords(low, false) == GroupWords(low, false);
    assert TailWords(low) == (if low[0] == 0 then [LING] else []) + GroupWords(low, false);
  }

  method SpeakTail(digits: seq<nat>, out: seq<nat>) returns (res: seq<nat>)
    requires 0 < |digits| <= 8
    ensures res == out + TailWords(digits)
  {
    hide WanWords;
    res := out;
    if AllZero(digits) { return; }
    if digits[0] == 0 { res := res + [LING]; }
    res := SpeakWan(digits, res, false);
  }

  method SpeakInteger(digits: seq<nat>, out: seq<nat>) returns (res: seq<nat>)
    ensures res == out + IntegerWords(digits)
  {
    hide GroupWords, WanWords, TailWords;
    var len := |digits|;
    if len == 0 {
      res := out + [LING];
    } else if len > 12 {
      res := out;
      for i := 0 to len
        invariant res == out + digits[..i]
      {
        res := res + [digits[i]];
      }
      assert digits[..len] == digits;
    } else if len <= 8 {
      res := SpeakWan(digits, out, len <= 4);
    } else {
      var low := digits[len - 8..];
      res := SpeakGroup(digits[..len - 8], out, false);
      res := res + [YI_UNIT];
      res := SpeakTail(low, res);
    }
  }

  /** Speaks a formatted number: sign, whole part, and the digits after the point. */
  method Speak(s: string) returns (res: seq<nat>)
    requires AllDigits(Whole(s)) && AllDigits(Frac(s))
    ensures res == SpokenWords(s)
  {
    hide IntegerWords, Whole, Frac, Signed;
    var whole := SpeakInteger(DigitsOf(Whole(s)), if Signed(s) then [NEGATIVE] else []);
    var dec := Frac(s);
    res := whole;
    if dec != "" {
      res := res + [DIAN];
      for i := 0 to |dec|
        invariant res == whole + [DIAN] + DigitsOf(dec)[..i]
      {
        res := res + [DigitOf(dec[i])];
      }
      assert DigitsOf(dec)[..|dec|] == DigitsOf(dec);
    }
  }

  // ---------- the listener ----------

  /** Closed 万/亿 groups, the units heard in the open group, and the number still waiting for its unit. */
  datatype Ear = Ear(total: nat, section: nat, waiting: Option<nat>) {
    function Waiting(): nat {
      if waiting.Some? then waiting.value else 0
    }

    function Sum(): nat {
      total + section + Waiting()
    }
  }

  /** A digit extends the waiting number, a unit scales it, and a bare ten counts one. */
  function Hear(e: Ear, w: nat): Ear {
    if w <= 9 then e.(waiting := Some(10 * e.Waiting() + w))
    else if w == SHI then Ear(e.total, e.section + (if e.waiting.Some? then 10 * e.waiting.value else 10), None)
    else if w == BAI then Ear(e.total, e.section + 100 * e.Waiting(), None)
    else if w == QIAN then Ear(e.total, e.section + 1000 * e.Waiting(), None)
    else if w == WAN then Ear(e.total + 10000 * (e.section + e.Waiting()), 0, None)
    else if w == YI_UNIT then Ear(100000000 * e.Sum(), 0, None)
    else e
  }

  function HearAll(e: Ear, words: seq<nat>): Ear {
    if words == [] then e else Hear(HearAll(e, words[..|words| - 1]), words[|words| - 1])
  }

  datatype Utterance = Utterance(minus: bool, whole: nat, frac: seq<nat>)

  function PointAt(words: seq<nat>): (r: nat)
    ensures r <= |words|
  {
    if words == [] || words[0] == DIAN then 0 else 1 + PointAt(words[1..])
  }

  function Listen(words: seq<nat>): Utterance {
    if words != [] && words[0] == NEGATIVE then ListenUnsigned(true, words[1..]) else ListenUnsigned(false, words)
  }

  function ListenUnsigned(minus: bool, words: seq<nat>): Utterance {
    var p := PointAt(words);
    Utterance(minus, HearAll(Ear(0, 0, None), words[..p]).Sum(), if p < |words| then words[p + 1..] else [])
  }

  // ---------- they undo each other ----------

  function ValueOf(d: seq<nat>): nat {
    if d == [] then 0 else 10 * ValueOf(d[..|d| - 1]) + d[|d| - 1]
  }

  lemma {:induction false} ValueOfConcat(a: seq<nat>, b: seq<nat>)
    ensures ValueOf(a + b) == ValueOf(a) * Pow10(|b|) + ValueOf(b)
    decreases |b|
  {
    if b == [] {
      assert a + b == a;
    } else {
      var c := b[..|b| - 1];
      ValueOfConcat(a, c);
      assert (a + b)[..|a + b| - 1] == a + c;
      assert Pow10(|b|) == 10 * Pow10(|c|);
      Regroup(ValueOf(a), Pow10(|c|));
    }
  }

  lemma Regroup(x: nat, p: nat)
    ensures x * (10 * p) == 10 * (x * p)
  {
  }

  lemma {:induction false} ValueOfZeros(d: seq<nat>)
    requires AllZero(d)
    ensures ValueOf(d) == 0
  {
    if d != [] {
      ValueOfZeros(d[..|d| - 1]);
    }
  }

  lemma {:induction false} HearConcat(e: Ear, a: seq<nat>, b: seq<nat>)
    ensures HearAll(e, a + b) == HearAll(HearAll(e, a), b)
    decreases |b|
  {
    if b == [] {
      assert a + b == a;
    } else {
      HearConcat(e, a, b[..|b| - 1]);
      assert (a + b)[..|a + b| - 1] == a + b[..|b| - 1];
    }
  }

  lemma HearNone(e: Ear)
    ensures HearAll(e, []) == e
  {
  }

  lemma HearOne(e: Ear, w: nat)
    ensures HearAll(e, [w]) == Hear(e, w)
  {
    assert [w][..0] == [];
  }

  lemma HearTwo(e: Ear, v: nat, w: nat)
    ensures HearAll(e, [v, w]) == Hear(Hear(e, v), w)
  {
    assert [v, w] == [v] + [w];
    HearConcat(e, [v], [w]);
    HearOne(e, v);
    HearOne(Hear(e, v), w);
  }

  /** Nothing waits that could be mistaken for part of the next digit. */
  predicate Clean(e: Ear) {
    e.waiting == None || e.waiting == Some(0)
  }

  lemma HeardTensAndOnes(e: Ear, t: nat, o: nat)
    requires Clean(e) && t <= 9 && o <= 9
    ensures var r := HearAll(e, TensAndOnes(t, o));
            r.total == e.total && r.section + r.Waiting() == e.section + 10 * t + o
  {
    var head := if t != 0 then [t, SHI] else if o != 0 then [LING] else [];
    HearConcat(e, head, Ones(o));
    if t != 0 {
      HearTwo(e, t, SHI);
    } else if o != 0 {
      HearOne(e, LING);
    }
    if o != 0 {
      HearOne(HearAll(e, head), o);
    }
  }

  lemma HeardBelowThousand(e: Ear, h: nat, t: nat, o: nat)
    requires Clean(e) && h <= 9 && t <= 9 && o <= 9
    ensures var r := HearAll(e, BelowThousand(h, t, o));
            r.total == e.total && r.section + r.Waiting() == e.section + 100 * h + 10 * t + o
  {
    if h != 0 {
      HearTwo(e, h, BAI);
      HearConcat(e, [h, BAI], TensAndOnes(t, o));
      HeardTensAndOnes(Hear(Hear(e, h), BAI), t, o);
    } else if t != 0 {
      HearOne(e, LING);
      HearConcat(e, [LING], TensAndOnes(t, o));
      HeardTensAndOnes(Hear(e, LING), t, o);
    } else {
      HeardTensAndOnes(e, t, o);
    }
  }

  lemma ValueOfGroup(g: seq<nat>)
    requires 1 <= |g| <= 4
    ensures ValueOf(g) == if |g| == 4 then 1000 * g[0] + 100 * g[1] + 10 * g[2] + g[3]
                          else if |g| == 3 then 100 * g[0] + 10 * g[1] + g[2]
                          else if |g| == 2 then 10 * g[0] + g[1]
                          else g[0]
  {
    if |g| > 1 {
      ValueOfGroup(g[..|g| - 1]);
    }
  }

  lemma HeardGroup(e: Ear, g: seq<nat>, leading: bool)
    requires Digits(g) && 1 <= |g| <= 4 && e.section == 0 && Clean(e) && (leading ==> e.waiting == None)
    ensures var r := HearAll(e, GroupWords(g, leading));
            r.total == e.total && r.section + r.Waiting() == ValueOf(g)
  {
    hide HearAll, ValueOf, BelowThousand, TensAndOnes;
    ValueOfGroup(g);
    if |g| == 4 {
      HearTwo(e, g[0], QIAN);
      HearConcat(e, [g[0], QIAN], BelowThousand(g[1], g[2], g[3]));
      HeardBelowThousand(Hear(Hear(e, g[0]), QIAN), g[1], g[2], g[3]);
    } else if |g| == 3 {
      HearTwo(e, g[0], BAI);
      HearConcat(e, [g[0], BAI], TensAndOnes(g[1], g[2]));
      HeardTensAndOnes(Hear(Hear(e, g[0]), BAI), g[1], g[2]);
    } else if |g| == 2 {
      var head := if g[0] == 1 && leading then [SHI] else [g[0], SHI];
      HearConcat(e, head, Ones(g[1]));
      HearOne(e, SHI);
      HearTwo(e, g[0], SHI);
      HearOne(HearAll(e, head), g[1]);
      HearNone(HearAll(e, head));
    } else {
      HearOne(e, g[0]);
    }
  }

  lemma ValueOfSplit(d: seq<nat>, k: nat)
    requires k <= |d|
    ensures ValueOf(d) == ValueOf(d[..|d| - k]) * Pow10(k) + ValueOf(d[|d| - k..])
  {
    hide ValueOf, Pow10;
    ValueOfConcat(d[..|d| - k], d[|d| - k..]);
    assert d == d[..|d| - k] + d[|d| - k..];
  }

  lemma UnitSizes()
    ensures Pow10(4) == 10000 && Pow10(8) == 100000000
  {
    assert Pow10(2) == 100 && Pow10(4) == 100 * Pow10(2) && Pow10(6) == 100 * Pow10(4) && Pow10(8) == 100 * Pow10(6);
  }

  /** A group closed by 万 or 亿, and what follows it. */
  lemma HeardClosed(e: Ear, g: seq<nat>, unit: nat, rest: seq<nat>)
    requires Digits(g) && 1 <= |g| <= 4 && e.section == 0 && Clean(e)
    requires unit == WAN || (unit == YI_UNIT && e.total == 0)
    ensures HearAll(e, GroupWords(g, false) + [unit] + rest)
         == HearAll(Ear(if unit == WAN then e.total + 10000 * ValueOf(g) else 100000000 * ValueOf(g), 0, None), rest)
  {
    hide GroupWords, ValueOf, HearAll;
    var words := GroupWords(g, false);
    HeardGroup(e, g, false);
    HearConcat(e, words + [unit], rest);
    HearConcat(e, words, [unit]);
    HearOne(HearAll(e, words), unit);
  }

  lemma HeardWan(e: Ear, d: seq<nat>, leading: bool)
    requires Digits(d) && 1 <= |d| <= 8 && e.section == 0 && Clean(e)
    requires leading ==> e.waiting == None && |d| <= 4
    ensures HearAll(e, WanWords(d, leading)).Sum() == e.total + ValueOf(d)
    decreases |d|, 0
  {
    hide GroupWords, ValueOf, HearAll, Pow10, TailWords;
    if |d| <= 4 {
      HeardGroup(e, d, leading);
    } else {
      var high, low := d[..|d| - 4], d[|d| - 4..];
      HeardClosed(e, high, WAN, TailWords(low));
      HeardTail(Ear(e.total + 10000 * ValueOf(high), 0, None), low);
      ValueOfSplit(d, 4);
      UnitSizes();
    }
  }

  lemma HeardTail(b: Ear, low: seq<nat>)
    requires Digits(low) && 1 <= |low| <= 8 && b.section == 0 && b.waiting == None
    ensures HearAll(b, TailWords(low)).Sum() == b.total + ValueOf(low)
    decreases |low|, 1
  {
    hide WanWords, ValueOf, HearAll;
    if AllZero(low) {
      ValueOfZeros(low);
      HearNone(b);
    } else {
      var filler := if low[0] == 0 then [LING] else [];
      HearConcat(b, filler, WanWords(low, false));
      HearNone(b);
      HearOne(b, LING);
      HeardWan(HearAll(b, filler), low, false);
    }
  }

  lemma {:induction false} HeardPositional(d: seq<nat>)
    requires Digits(d)
    ensures HearAll(Ear(0, 0, None), d) == Ear(0, 0, if d == [] then None else Some(ValueOf(d)))
  {
    if d != [] {
      HeardPositional(d[..|d| - 1]);
    }
  }

  /** Any run of digits, of any length and with any leading zeros, is understood as its value. */
  lemma HeardInteger(d: seq<nat>)
    requires Digits(d)
    ensures HearAll(Ear(0, 0, None), IntegerWords(d)).Sum() == ValueOf(d)
  {
    var e := Ear(0, 0, None);
    if d == [] {
      HearOne(e, LING);
    } else if |d| > 12 {
      HeardPositional(d);
    } else if |d| <= 8 {
      HeardWan(e, d, |d| <= 4);
    } else {
      HeardYi(d);
    }
  }

  lemma HeardYi(d: seq<nat>)
    requires Digits(d) && 8 < |d| <= 12
    ensures HearAll(Ear(0, 0, None), IntegerWords(d)).Sum() == ValueOf(d)
  {
    hide GroupWords, TailWords, ValueOf, HearAll, Pow10;
    var high, low := d[..|d| - 8], d[|d| - 8..];
    HeardClosed(Ear(0, 0, None), high, YI_UNIT, TailWords(low));
    HeardTail(Ear(100000000 * ValueOf(high), 0, None), low);
    ValueOfSplit(d, 8);
    UnitSizes();
  }

  /** A word that can occur in a whole part: a digit or a unit, never the point or the sign. */
  predicate Plain(words: seq<nat>) {
    forall i | 0 <= i < |words| :: words[i] <= YI_UNIT
  }

  lemma PlainGroup(g: seq<nat>, leading: bool)
    requires Digits(g) && |g| <= 4
    ensures Plain(GroupWords(g, leading)) && (g != [] ==> GroupWords(g, leading) != [])
  {
  }

  lemma PlainWan(d: seq<nat>, leading: bool)
    requires Digits(d) && d != [] && |d| <= 8
    ensures Plain(WanWords(d, leading)) && WanWords(d, leading) != [] && Plain(TailWords(d))
    decreases |d|
  {
    hide GroupWords;
    if |d| <= 4 {
      PlainGroup(d, leading);
      PlainGroup(d, false);
    } else {
      PlainGroup(d[..|d| - 4], false);
      PlainWan(d[|d| - 4..], false);
    }
  }

  lemma PlainInteger(d: seq<nat>)
    requires Digits(d)
    ensures Plain(IntegerWords(d)) && IntegerWords(d) != []
  {
    hide GroupWords, WanWords, TailWords;
    if 0 < |d| <= 8 {
      PlainWan(d, |d| <= 4);
    } else if 8 < |d| <= 12 {
      PlainGroup(d[..|d| - 8], false);
      PlainWan(d[|d| - 8..], false);
    }
  }

  lemma {:induction false} PointSplits(a: seq<nat>, b: seq<nat>)
    requires Plain(a) && (b == [] || b[0] == DIAN)
    ensures PointAt(a + b) == |a|
  {
    if a == [] {
      assert a + b == b;
    } else {
      assert (a + b)[0] == a[0];
      assert (a + b)[1..] == a[1..] + b;
      PointSplits(a[1..], b);
    }
  }

  lemma ListenParts(minus: bool, words: seq<nat>, frac: seq<nat>)
    requires Plain(words)
    ensures ListenUnsigned(minus, words + if frac == [] then [] else [DIAN] + frac)
         == Utterance(minus, HearAll(Ear(0, 0, None), words).Sum(), frac)
  {
    hide HearAll, PointAt;
    var tail := if frac == [] then [] else [DIAN] + frac;
    PointSplits(words, tail);
    assert (words + tail)[..|words|] == words;
    assert frac != [] ==> (words + tail)[|words| + 1..] == frac;
  }

  lemma {:induction false} DigitsKeepValue(s: string)
    requires AllDigits(s)
    ensures ValueOf(DigitsOf(s)) == NatOf(s)
  {
    if s != "" {
      DigitsKeepValue(s[..|s| - 1]);
      assert DigitsOf(s)[..|s| - 1] == DigitsOf(s[..|s| - 1]);
    }
  }

  /** Listening to what is spoken for a numeral gives back its sign, its whole value and its fraction digits. */
  lemma ListenUndoesSpeak(s: string)
    requires IsNumeral(s)
    ensures Listen(SpokenWords(s)) == Utterance(Signed(s), NatOf(Whole(s)), DigitsOf(Frac(s)))
  {
    hide Whole, Frac, Signed, IntegerWords, HearAll, ValueOf, NatOf, ListenUnsigned;
    var d, f := DigitsOf(Whole(s)), DigitsOf(Frac(s));
    PlainInteger(d);
    HeardInteger(d);
    DigitsKeepValue(Whole(s));
    ListenParts(Signed(s), IntegerWords(d), f);
    var rest := IntegerWords(d) + if f == [] then [] else [DIAN] + f;
    assert rest[0] == IntegerWords(d)[0] <= YI_UNIT;
    assert f == [] <==> Frac(s) == "";
    assert SpokenWords(s) == (if Signed(s) then [NEGATIVE] else []) + rest;
    if Signed(s) {
      assert SpokenWords(s)[0] == NEGATIVE && SpokenWords(s)[1..] == rest;
    } else {
      assert SpokenWords(s) == rest;
    }
  }

  // ---------- where the zeros are said ----------

  /** The recordings of ten, hundred and thousand. */
  function UnitWord(place: nat): nat {
    if place == 3 then 12 else if place == 2 then 11 else 10
  }

  /** One place: a zero for the gap before it, the digit, and its unit unless it is the ones. */
  function PlaceWords(gap: bool, d: nat, place: nat): seq<nat> {
    if place == 0 then (if gap then [0, d] else [d])
    else if gap then [0, d, UnitWord(place)] else [d, UnitWord(place)]
  }

  /** Place by place from index `i`: digits with their units, and one zero for each gap that a digit follows. */
  function Places(g: seq<nat>, i: nat, gap: bool): seq<nat>
    requires i <= |g|
    decreases |g| - i
  {
    if i == |g| then []
    else if g[i] == 0 then Places(g, i + 1, true)
    else PlaceWords(gap, g[i], |g| - 1 - i) + Places(g, i + 1, false)
  }

  /** How a group opens: with its first digit and unit, but a leading group from 10 to 19 with the bare ten. */
  function OpeningWords(g: seq<nat>, leading: bool): seq<nat>
    requires g != []
  {
    if leading && |g| == 2 && g[0] == 1 then [10] else PlaceWords(false, g[0], |g| - 1)
  }

  lemma GroupOpens(g: seq<nat>, leading: bool)
    requires 1 <= |g| <= 4
    ensures |g| == 1 ==> GroupWords(g, leading) == OpeningWords(g, leading)
    ensures |g| == 2 ==> GroupWords(g, leading) == OpeningWords(g, leading) + Ones(g[1])
    ensures |g| == 3 ==> GroupWords(g, leading) == OpeningWords(g, leading) + TensAndOnes(g[1], g[2])
    ensures |g| == 4 ==> GroupWords(g, leading) == OpeningWords(g, leading) + BelowThousand(g[1], g[2], g[3])
  {
    hide TensAndOnes, BelowThousand, Ones;
  }

  lemma PlacesAfterOpening(g: seq<nat>)
    requires 1 <= |g| <= 4
    ensures |g| == 1 ==> Places(g, 1, false) == []
    ensures |g| == 2 ==> Places(g, 1, false) == Ones(g[1])
    ensures |g| == 3 ==> Places(g, 1, false) == TensAndOnes(g[1], g[2])
    ensures |g| == 4 ==> Places(g, 1, false) == BelowThousand(g[1], g[2], g[3])
  {
    hide Places, TensAndOnes, BelowThousand, Ones;
    if |g| == 1 {
      NoPlaces(g);
    } else if |g| == 2 {
      LastOne(g);
    } else if |g| == 3 {
      LastTwoPlaces(g, false);
    } else {
      LastThreePlaces(g);
    }
  }

  /** A group is its opening, zero or not, and then the uniform reading of the rest. */
  lemma GroupIsPlaceByPlace(g: seq<nat>, leading: bool)
    requires 1 <= |g| <= 4
    ensures GroupWords(g, leading) == OpeningWords(g, leading) + Places(g, 1, false)
  {
    hide Places, TensAndOnes, BelowThousand, Ones, GroupWords, OpeningWords;
    GroupOpens(g, leading);
    PlacesAfterOpening(g);
  }

  /** Four places after a closed group: nothing for zeros, and otherwise all of them, the thousands always said. */
  function LastFour(low: seq<nat>): seq<nat>
    requires |low| == 4
  {
    if AllZero(low) then [] else PlaceWords(low[0] == 0, low[0], 3) + Places(low, 1, false)
  }

  /** A group that something follows: its first digit is always said. */
  function ClosedGroup(g: seq<nat>): seq<nat>
    requires g != []
  {
    PlaceWords(false, g[0], |g| - 1) + Places(g, 1, false)
  }

  /** Eight places after the hundred millions: nothing for zeros, and otherwise one zero in front of an opening zero. */
  function LastEight(low: seq<nat>): seq<nat>
    requires |low| == 8
  {
    if AllZero(low) then []
    else (if low[0] == 0 then [0] else []) + ClosedGroup(low[..4]) + [13] + LastFour(low[4..])
  }

  /**
    The whole part, place by place: digit by digit beyond twelve digits; the bare ten for 10 to 19 standing alone and
    nowhere else; ten thousands and hundred millions closed by their own words.
   */
  function IntegerReading(d: seq<nat>): seq<nat> {
    var n := |d|;
    if n == 0 then [0]
    else if n > 12 then d
    else if n <= 4 then (if n == 2 && d[0] == 1 then [10] else PlaceWords(false, d[0], n - 1)) + Places(d, 1, false)
    else if n <= 8 then ClosedGroup(d[..n - 4]) + [13] + LastFour(d[n - 4..])
    else ClosedGroup(d[..n - 8]) + [14] + LastEight(d[n - 8..])
  }

  lemma TailIsPlaceByPlace(low: seq<nat>)
    requires |low| == 4
    ensures TailWords(low) == LastFour(low)
  {
    hide Places, GroupWords, AllZero;
    GroupIsPlaceByPlace(low, false);
    var rest := Places(low, 1, false);
    assert WanWords(low, false) == [low[0], QIAN] + rest;
    assert [LING] + ([low[0], QIAN] + rest) == [LING, low[0], QIAN] + rest;
  }

  lemma EightIsPlaceByPlace(low: seq<nat>)
    requires |low| == 8
    ensures TailWords(low) == LastEight(low)
  {
    hide Places, GroupWords, AllZero, LastFour, PlaceWords, ClosedGroup;
    ClosedIsGroup(low[..4]);
    TailIsPlaceByPlace(low[4..]);
    ZeroInFront(ClosedGroup(low[..4]), LastFour(low[4..]));
  }

  lemma ClosedIsGroup(g: seq<nat>)
    requires 1 <= |g| <= 4
    ensures GroupWords(g, false) == ClosedGroup(g)
  {
    hide Places, GroupWords, PlaceWords;
    GroupIsPlaceByPlace(g, false);
  }

  lemma ZeroInFront(high: seq<nat>, rest: seq<nat>)
    ensures [] + high + [13] + rest == high + [13] + rest
    ensures [0] + (high + [13] + rest) == [0] + high + [13] + rest
  {
    assert [0] + (high + [13]) == [0] + high + [13];
    assert [0] + (high + [13] + rest) == [0] + (high + [13]) + rest;
    assert [] + high == high;
  }

  /** What is spoken for a whole part is that reading. */
  lemma IntegerIsPlaceByPlace(d: seq<nat>)
    ensures IntegerWords(d) == IntegerReading(d)
  {
    hide Places, GroupWords, AllZero, LastFour, LastEight, PlaceWords, TailWords;
    var n := |d|;
    if 0 < n <= 4 {
      GroupIsPlaceByPlace(d, true);
    } else if 4 < n <= 8 {
      GroupIsPlaceByPlace(d[..n - 4], false);
      TailIsPlaceByPlace(d[n - 4..]);
    } else if 8 < n <= 12 {
      GroupIsPlaceByPlace(d[..n - 8], false);
      EightIsPlaceByPlace(d[n - 8..]);
    }
  }

  /** And the whole utterance: the sign's word, the reading of the whole part, the point's word and the digits. */
  lemma SpokenReading(s: string)
    requires AllDigits(Whole(s)) && AllDigits(Frac(s))
    ensures SpokenWords(s)
         == (if Signed(s) then [25] else []) + IntegerReading(DigitsOf(Whole(s)))
            + (if Frac(s) == "" then [] else [19] + DigitsOf(Frac(s)))
  {
    hide IntegerWords, IntegerReading, Whole, Frac, Signed;
    IntegerIsPlaceByPlace(DigitsOf(Whole(s)));
    assert DigitsOf(Frac(s)) == [] <==> Frac(s) == "";
  }

  lemma NoPlaces(g: seq<nat>)
    ensures Places(g, |g|, false) == []
  {
  }

  lemma LastPlace(g: seq<nat>, gap: bool)
    requires g != []
    ensures Places(g, |g| - 1, gap) == if g[|g| - 1] == 0 then [] else PlaceWords(gap, g[|g| - 1], 0)
  {
    NoPlaces(g);
  }

  lemma NextPlace(g: seq<nat>, i: nat, gap: bool)
    requires i < |g|
    ensures Places(g, i, gap) == if g[i] == 0 then Places(g, i + 1, true)
                                 else PlaceWords(gap, g[i], |g| - 1 - i) + Places(g, i + 1, false)
  {
  }

  lemma TensIsPlaceByPlace(gap: bool, t: nat, o: nat)
    requires t != 0
    ensures (if gap then [LING] + TensAndOnes(t, o) else TensAndOnes(t, o)) == PlaceWords(gap, t, 1) + Ones(o)
  {
    hide Ones;
    var ones := Ones(o);
    assert TensAndOnes(t, o) == [t, SHI] + ones;
    assert [LING] + ([t, SHI] + ones) == [LING, t, SHI] + ones;
  }

  lemma LastTwoPlaces(g: seq<nat>, gap: bool)
    requires |g| >= 2
    ensures var t, rest := g[|g| - 2], TensAndOnes(g[|g| - 2], g[|g| - 1]);
            Places(g, |g| - 2, gap) == if gap && t != 0 then [LING] + rest else rest
  {
    hide Places;
    var t, o := g[|g| - 2], g[|g| - 1];
    NextPlace(g, |g| - 2, gap);
    LastPlace(g, t == 0);
    if t == 0 {
      assert TensAndOnes(t, o) == if o != 0 then [LING, o] else [];
    } else {
      hide PlaceWords, TensAndOnes;
      TensIsPlaceByPlace(gap, t, o);
      LastOne(g);
    }
  }

  lemma LastOne(g: seq<nat>)
    requires g != []
    ensures Places(g, |g| - 1, false) == Ones(g[|g| - 1])
  {
    hide Places;
    LastPlace(g, false);
  }

  lemma LastThreePlaces(g: seq<nat>)
    requires |g| >= 3
    ensures Places(g, |g| - 3, false) == BelowThousand(g[|g| - 3], g[|g| - 2], g[|g| - 1])
  {
    hide *;
    var h, t, o := g[|g| - 3], g[|g| - 2], g[|g| - 1];
    HundredsThenTens(h, t, o);
    NextPlace(g, |g| - 3, false);
    if h != 0 {
      LastTwoPlaces(g, false);
      assert Places(g, |g| - 2, false) == TensAndOnes(t, o);
    } else {
      LastTwoPlaces(g, true);
    }
  }

  lemma HundredsThenTens(h: nat, t: nat, o: nat)
    ensures BelowThousand(h, t, o) == if h != 0 then PlaceWords(false, h, 2) + TensAndOnes(t, o)
                                      else if t != 0 then [LING] + TensAndOnes(t, o) else TensAndOnes(t, o)
  {
    hide TensAndOnes;
  }

  // ---------- the formatter in front of the speaker ----------

  function TrimEnd(s: string, c: char): string {
    if s != "" && s[|s| - 1] == c then TrimEnd(s[..|s| - 1], c) else s
  }

  function Normalize(s: string): string {
    if '.' in s then
      var trimmed := TrimEnd(TrimEnd(s, '0'), '.');
      if trimmed == "" || trimmed == "-" then "0" else trimmed
    else s
  }

  lemma {:induction false} TrimEndConcat(a: string, b: string, c: char)
    requires a != "" && a[|a| - 1] != c
    ensures TrimEnd(a + b, c) == a + TrimEnd(b, c)
    decreases |b|
  {
    if b == "" {
      assert a + b == a;
    } else if b[|b| - 1] == c {
      assert (a + b)[..|a + b| - 1] == a + b[..|b| - 1];
      TrimEndConcat(a, b[..|b| - 1], c);
    }
  }

  lemma {:induction false} TrimEndDigits(b: string)
    requires AllDigits(b)
    ensures AllDigits(TrimEnd(b, '0')) && (TrimEnd(b, '0') != "" ==> TrimEnd(b, '0')[|TrimEnd(b, '0')| - 1] != '0')
    ensures TrimEnd(b, '.') == b
  {
    if b != "" {
      TrimEndDigits(b[..|b| - 1]);
    }
  }

  /** Normalizing drops trailing fraction zeros, and the point with them, and nothing else. */
  lemma NormalizeKeepsNumeral(s: string)
    requires IsNumeral(s)
    ensures var n := Normalize(s);
            && IsNumeral(n) && Signed(n) == Signed(s) && Whole(n) == Whole(s)
            && Frac(n) == TrimEnd(Frac(s), '0') && (HasPoint(n) ==> Frac(n) != "" && HasPoint(s))
  {
    hide Whole, Frac, HasPoint, IsNumeral;
    Reassembled(s);
    var m, w, f := if Signed(s) then "-" else "", Whole(s), Frac(s);
    assert forall i | 0 <= i < |w| :: IsDigit(w[i]);
    if !HasPoint(s) {
      assert s == m + w;
      assert '.' !in s;
    } else {
      var head := m + w + ".";
      assert s == head + f && s[|head| - 1] == '.';
      TrimEndConcat(head, f, '0');
      TrimEndDigits(f);
      var g := TrimEnd(f, '0');
      TrimPoint(m, w, g);
      PartsOf(Signed(s), w, g != "", g);
      assert m + w + (if g != "" then "." else "") + g == if g == "" then m + w else m + w + "." + g;
    }
  }

  lemma TrimPoint(m: string, w: string, g: string)
    requires (m == "" || m == "-") && w != "" && AllDigits(w) && AllDigits(g)
    ensures var t := TrimEnd(m + w + "." + g, '.');
            t == (if g == "" then m + w else m + w + "." + g) && t != "" && t != "-"
  {
    assert IsDigit(w[|w| - 1]);
    if g == "" {
      TrimEndConcat(m + w, ".", '.');
      assert TrimEnd(".", '.') == TrimEnd("", '.') by { assert "."[..0] == ""; }
      assert m + w + "." + g == (m + w) + ".";
      assert (m + w) + "" == m + w;
      assert (m + w)[|m|] == w[0];
    } else {
      assert IsDigit(g[|g| - 1]);
      assert (m + w + "." + g)[|m|] == w[0];
    }
  }

  /** The whole path: format, speak, listen. Only trailing zeros of the fraction are lost. */
  lemma SpeechRoundTrip(s: string)
    requires IsNumeral(s)
    ensures IsNumeral(Normalize(s))
    ensures Listen(SpokenWords(Normalize(s)))
         == Utterance(Signed(s), NatOf(Whole(s)), (TrimEndDigits(Frac(s)); DigitsOf(TrimEnd(Frac(s), '0'))))
  {
    NormalizeKeepsNumeral(s);
    ListenUndoesSpeak(Normalize(s));
  }

  /** No redundant zeros: what the decimal library prints, once normalized. */
  predicate Canonical(s: string) {
    IsNumeral(s) && Normalize(s) == s && (|Whole(s)| > 1 ==> Whole(s)[0] != '0')
  }

  lemma {:induction false} NatOfInjective(a: string, b: string)
    requires AllDigits(a) && AllDigits(b) && a != "" && b != ""
    requires (|a| > 1 ==> a[0] != '0') && (|b| > 1 ==> b[0] != '0')
    requires NatOf(a) == NatOf(b)
    ensures a == b
    decreases |a|
  {
    var x, y := a[..|a| - 1], b[..|b| - 1];
    NotZero(x);
    NotZero(y);
    assert NatOf(x) == NatOf(y) && DigitOf(a[|a| - 1]) == DigitOf(b[|b| - 1]);
    if x != "" {
      assert y != "";
      NatOfInjective(x, y);
    }
    assert a == x + [a[|a| - 1]] && b == y + [b[|b| - 1]];
  }

  lemma {:induction false} NotZero(x: string)
    requires AllDigits(x) && (x != "" ==> x[0] != '0')
    ensures NatOf(x) == 0 <==> x == ""
  {
    if |x| > 1 {
      NotZero(x[..|x| - 1]);
    } else if |x| == 1 {
      assert x[..0] == "";
    }
  }

  lemma {:induction false} DigitsInjective(a: string, b: string)
    requires AllDigits(a) && AllDigits(b) && DigitsOf(a) == DigitsOf(b)
    ensures a == b
  {
    assert |a| == |b|;
    forall i | 0 <= i < |a| ensures a[i] == b[i] {
      assert DigitsOf(a)[i] == DigitsOf(b)[i];
    }
  }

  /** Distinct canonical numerals never sound the same. */
  lemma SoundsDistinct(s: string, t: string)
    requires Canonical(s) && Canonical(t) && SpokenWords(s) == SpokenWords(t)
    ensures s == t
  {
    ListenUndoesSpeak(s);
    ListenUndoesSpeak(t);
    NatOfInjective(Whole(s), Whole(t));
    DigitsInjective(Frac(s), Frac(t));
    NormalizeKeepsNumeral(s);
    NormalizeKeepsNumeral(t);
    Reassembled(s);
    Reassembled(t);
  }
}
