/**
 * Properties of tab transposition: what happens to each token, how DROP
 * tuning differs from STANDARD, and that a tab keeps its shape.
 */
module TabProperties {
  import opened Options
  import opened JsText
  import opened Types
  import opened MusicTheory

  // ---------------------------------------------------------------------
  // One token
  // ---------------------------------------------------------------------

  /** Text `parseInt` accepts is never the mute mark. */
  lemma MuteUnreadable()
    ensures ParseInt("x").None? && ParseInt("X").None?
  {
    assert TrimStart("x") == "x" && DigitPrefix("x") == "";
    assert TrimStart("X") == "X" && DigitPrefix("X") == "";
  }

  /** A mute mark in either case is written as a lower-case `x`. */
  lemma TokenMuted(val: string, index: int, semitones: int, tuningMode: TuningMode)
    requires val == "x" || val == "X"
    ensures TransposeToken(val, index, semitones, tuningMode) == "x"
  {
  }

  /** A token `parseInt` cannot read (the empty token between two spaces,
      a letter) is kept as it is. */
  lemma TokenUnreadable(val: string, index: int, semitones: int, tuningMode: TuningMode)
    requires ParseInt(val).None? && val != "X"
    ensures TransposeToken(val, index, semitones, tuningMode) == val
  {
    MuteUnreadable();
  }

  /** A fret token is rewritten as a fret that `parseInt` reads back: never
      negative, in the same place on the twelve-fret cycle as the shifted
      and offset fret, equal to it when that is not negative and below 12
      when it is. */
  lemma TokenFret(val: string, index: int, semitones: int, tuningMode: TuningMode, fret: int)
    requires ParseInt(val) == Some(fret)
    ensures var target := fret + semitones + DropOffset(tuningMode, index);
            var out := TransposeToken(val, index, semitones, tuningMode);
            ParseInt(out).Some?
            && ParseInt(out).value >= 0
            && (ParseInt(out).value - target) % 12 == 0
            && (target >= 0 ==> ParseInt(out).value == target)
            && (target < 0 ==> ParseInt(out).value < 12)
  {
    MuteUnreadable();
    var target := fret + semitones + DropOffset(tuningMode, index);
    assert TransposeToken(val, index, semitones, tuningMode) == FormatInt(FretFloor(target));
    FretReadBack(target);
  }

  /** The fret `FretFloor` raises a target to reads back as itself. */
  lemma FretReadBack(target: int)
    ensures var m := FretFloor(target);
            ParseInt(FormatInt(m)) == Some(m)
            && m >= 0 && (m - target) % 12 == 0
            && (target >= 0 ==> m == target)
            && (target < 0 ==> m < 12)
  {
    ParseFormatInt(FretFloor(target));
  }

  /** Whatever a token becomes, it holds no space when it held none. */
  lemma TokenSpaceFree(val: string, index: int, semitones: int, tuningMode: TuningMode)
    requires SpaceFree(val)
    ensures SpaceFree(TransposeToken(val, index, semitones, tuningMode))
  {
    match ParseInt(val)
    case None =>
    case Some(fret) =>
      FormatIntShape(FretFloor(fret + semitones + DropOffset(tuningMode, index)));
  }

  /** DROP tuning only touches the lowest string: there it is STANDARD
      tuning with two more semitones, elsewhere it is STANDARD tuning. */
  lemma TokenDrop(val: string, index: int, semitones: int)
    ensures index != 0 ==>
              TransposeToken(val, index, semitones, DROP) == TransposeToken(val, index, semitones, STANDARD)
    ensures index == 0 ==>
              TransposeToken(val, index, semitones, DROP) == TransposeToken(val, index, semitones + 2, STANDARD)
  {
  }

  /** Two shifts in a row that never go below the nut are one shift by
      their sum. */
  lemma TokenCompose(val: string, index: int, a: int, b: int)
    requires ParseInt(val).Some? ==> ParseInt(val).value + a >= 0 && ParseInt(val).value + a + b >= 0
    ensures TransposeToken(TransposeToken(val, index, a, STANDARD), index, b, STANDARD)
            == TransposeToken(val, index, a + b, STANDARD)
  {
    MuteUnreadable();
    if ParseInt(val).Some? && val != "x" && val != "X" {
      ParseFormatInt(ParseInt(val).value + a);
    }
  }

  /** The tokens that distance 0 in STANDARD tuning leaves as they are:
      every token but "X" that `parseInt` cannot read, and frets spelled as
      plain digits without a leading zero. */
  predicate KeptAtZero(val: string) {
    val != "X" && (ParseInt(val).None? || CanonicalDigits(val))
  }

  /** At distance 0 in STANDARD tuning a token is returned as it is exactly
      when it is `KeptAtZero`; "X", a fret with a sign, leading whitespace,
      a leading zero or trailing text is respelled. */
  lemma TokenZero(val: string, index: int)
    ensures TransposeToken(val, index, 0, STANDARD) == val <==> KeptAtZero(val)
  {
    MuteUnreadable();
    if CanonicalDigits(val) {
      ParseIntDigits(val);
      NatToDigitsOfValue(val);
    }
  }

  // ---------------------------------------------------------------------
  // A whole tab
  // ---------------------------------------------------------------------

  /** Every token of a split tab holds no space after transposition. */
  lemma TokensSpaceFree(strings: seq<string>, semitones: int, tuningMode: TuningMode)
    requires AllSpaceFree(strings)
    ensures AllSpaceFree(TransposeTokens(strings, semitones, tuningMode))
  {
    var r := TransposeTokens(strings, semitones, tuningMode);
    forall k | 0 <= k < |r|
      ensures SpaceFree(r[k])
    {
      TokenSpaceFree(strings[k], k, semitones, tuningMode);
    }
  }

  /** Splitting the transposed tab gives back the transposed tokens, one
      per token of the original: the tab keeps its number of strings and
      each string keeps its place. */
  lemma TabsShape(tabs: string, semitones: int, tuningMode: TuningMode)
    requires tabs != "" && tabs != "TRANSPOSED"
    ensures Split(TransposedTabs(Some(tabs), semitones, tuningMode))
            == TransposeTokens(Split(tabs), semitones, tuningMode)
    ensures |Split(TransposedTabs(Some(tabs), semitones, tuningMode))| == |Split(tabs)|
  {
    SplitPiecesSpaceFree(tabs);
    TokensSpaceFree(Split(tabs), semitones, tuningMode);
    SplitJoin(TransposeTokens(Split(tabs), semitones, tuningMode));
  }

  /** The tokens of DROP and STANDARD transpositions agree on every string
      but the lowest, which DROP frets two higher. */
  lemma TabsDrop(strings: seq<string>, semitones: int)
    requires |strings| >= 1
    ensures var drop := TransposeTokens(strings, semitones, DROP);
            var standard := TransposeTokens(strings, semitones, STANDARD);
            drop[1..] == standard[1..]
            && drop[0] == TransposeTokens(strings, semitones + 2, STANDARD)[0]
  {
    var drop := TransposeTokens(strings, semitones, DROP);
    var standard := TransposeTokens(strings, semitones, STANDARD);
    forall k | 1 <= k < |strings|
      ensures drop[k] == standard[k]
    {
      TokenDrop(strings[k], k, semitones);
    }
    TokenDrop(strings[0], 0, semitones + 0);
  }

  /** The shortcuts: no tab, or an empty one, gives the empty tab, and the
      marker "TRANSPOSED" is kept. */
  lemma TabsShortcuts(semitones: int, tuningMode: TuningMode)
    ensures TransposedTabs(None, semitones, tuningMode) == ""
    ensures TransposedTabs(Some(""), semitones, tuningMode) == ""
    ensures TransposedTabs(Some("TRANSPOSED"), semitones, tuningMode) == "TRANSPOSED"
  {
  }

  /** The empty tab is a single token that is kept. */
  lemma EmptyTabToken()
    ensures Split("") == [""] && KeptAtZero("")
  {
    assert DigitPrefix(TrimStart("")) == "";
  }

  /** The marker is a single token that is kept. It is passed as a
      parameter so that the verifier does not unfold `Split` on the
      literal. */
  lemma MarkerToken(marker: string)
    requires marker == "TRANSPOSED"
    ensures Split(marker) == [marker] && KeptAtZero(marker)
  {
    assert marker[0] == 'T' && !IsJsWhitespace(marker[0]) && !IsDigit(marker[0]);
    assert TrimStart(marker) == marker && DigitPrefix(marker) == "";
    SplitSpaceFree(marker);
  }

  /** At distance 0 in STANDARD tuning a tab is returned as it is exactly
      when every one of its tokens is `KeptAtZero`. */
  lemma TabsZero(tabs: string)
    ensures TransposedTabs(Some(tabs), 0, STANDARD) == tabs
            <==> forall k | 0 <= k < |Split(tabs)| :: KeptAtZero(Split(tabs)[k])
  {
    if tabs == "" {
      EmptyTabToken();
    } else if tabs == "TRANSPOSED" {
      MarkerToken(tabs);
    } else {
      var ts := Split(tabs);
      var outs := TransposeTokens(ts, 0, STANDARD);
      forall k | 0 <= k < |ts|
        ensures outs[k] == ts[k] <==> KeptAtZero(ts[k])
      {
        TokenZero(ts[k], k);
      }
      if forall k | 0 <= k < |ts| :: KeptAtZero(ts[k]) {
        assert outs == ts;
        JoinSplit(tabs);
      }
      if TransposedTabs(Some(tabs), 0, STANDARD) == tabs {
        TabsShape(tabs, 0, STANDARD);
        assert outs == ts;
      }
    }
  }

  // ---------------------------------------------------------------------
  // Examples
  // ---------------------------------------------------------------------

  /** The tokens of a six-string tab, each transposed at its place. */
  lemma TokensSix(t0: string, t1: string, t2: string, t3: string, t4: string, t5: string,
                  semitones: int, tuningMode: TuningMode)
    ensures TransposeTokens([t0, t1, t2, t3, t4, t5], semitones, tuningMode)
            == [TransposeToken(t0, 0, semitones, tuningMode), TransposeToken(t1, 1, semitones, tuningMode),
                TransposeToken(t2, 2, semitones, tuningMode), TransposeToken(t3, 3, semitones, tuningMode),
                TransposeToken(t4, 4, semitones, tuningMode), TransposeToken(t5, 5, semitones, tuningMode)]
  {
    var ts := [t0, t1, t2, t3, t4, t5];
    TokenAt(ts, semitones, tuningMode, 0);
    TokenAt(ts, semitones, tuningMode, 1);
    TokenAt(ts, semitones, tuningMode, 2);
    TokenAt(ts, semitones, tuningMode, 3);
    TokenAt(ts, semitones, tuningMode, 4);
    TokenAt(ts, semitones, tuningMode, 5);
  }

  lemma TokenAt(strings: seq<string>, semitones: int, tuningMode: TuningMode, k: int)
    requires 0 <= k < |strings|
    ensures TransposeTokens(strings, semitones, tuningMode)[k] == TransposeToken(strings[k], k, semitones, tuningMode)
  {
  }

  /** A tab given as space-free tokens is transposed token by token. */
  lemma TabsVia(tokens: seq<string>, tabs: string, semitones: int, tuningMode: TuningMode, outs: seq<string>)
    requires |tokens| >= 1 && AllSpaceFree(tokens) && Join(tokens) == tabs
    requires tabs != "" && tabs != "TRANSPOSED"
    requires TransposeTokens(tokens, semitones, tuningMode) == outs
    ensures TransposedTabs(Some(tabs), semitones, tuningMode) == Join(outs)
  {
    SplitJoin(tokens);
  }

  /** A one-digit fret token moved to a one-digit fret. */
  lemma FretToken(val: string, index: int, semitones: int, tuningMode: TuningMode, d: nat, e: nat)
    requires d < 10 && e < 10
    requires val == [DigitChar(d)]
    requires d + semitones + DropOffset(tuningMode, index) == e
    ensures TransposeToken(val, index, semitones, tuningMode) == [DigitChar(e)]
  {
    ParseIntDigits(val);
    MuteUnreadable();
  }

  /** The open E shape, token by token, moved up three semitones is the
      G shape. */
  lemma ExampleEShapeTokensToG()
    ensures TransposeTokens(["0", "2", "2", "x", "x", "x"], 3, STANDARD) == ["3", "5", "5", "x", "x", "x"]
  {
    FretToken("0", 0, 3, STANDARD, 0, 3);
    FretToken("2", 1, 3, STANDARD, 2, 5);
    FretToken("2", 2, 3, STANDARD, 2, 5);
    TokensSix("0", "2", "2", "x", "x", "x", 3, STANDARD);
  }

  /** In DROP tuning the same shape at distance 0 frets the lowest string
      two higher. */
  lemma ExampleEShapeTokensDrop()
    ensures TransposeTokens(["0", "2", "2", "x", "x", "x"], 0, DROP) == ["2", "2", "2", "x", "x", "x"]
  {
    FretToken("0", 0, 0, DROP, 0, 2);
    FretToken("2", 1, 0, DROP, 2, 2);
    FretToken("2", 2, 0, DROP, 2, 2);
    TokensSix("0", "2", "2", "x", "x", "x", 0, DROP);
  }

  lemma JoinEShape()
    ensures Join(["0", "2", "2", "x", "x", "x"]) == "0 2 2 x x x"
  {
  }

  lemma EShapeSpaceFree()
    ensures AllSpaceFree(["0", "2", "2", "x", "x", "x"])
  {
  }

  lemma JoinGShape()
    ensures Join(["3", "5", "5", "x", "x", "x"]) == "3 5 5 x x x"
  {
  }

  /** The whole tab: "0 2 2 x x x" becomes "3 5 5 x x x" in STANDARD
      tuning. The literal is passed as a parameter fixed by the
      `requires`, so that the verifier does not unfold the functions on the
      literal text itself, which costs far more than the proof. */
  lemma ExampleEShapeToG(tabs: string)
    requires tabs == "0 2 2 x x x"
    ensures TransposedTabs(Some(tabs), 3, STANDARD) == "3 5 5 x x x"
  {
    JoinEShape();
    EShapeSpaceFree();
    ExampleEShapeTokensToG();
    JoinGShape();
    TabsVia(["0", "2", "2", "x", "x", "x"], tabs, 3, STANDARD, ["3", "5", "5", "x", "x", "x"]);
  }

  /** `parseInt` reads the leading digits of "3a". */
  lemma ExampleTrailingText()
    ensures TransposeToken("3a", 1, 2, STANDARD) == "5"
  {
    assert TrimStart("3a") == "3a";
    assert DigitPrefix("3a") == "3";
    assert DigitsValue("3") == 3;
    assert FormatInt(5) == "5";
  }

  /** Two spaces in a row leave an empty token, which is kept. */
  lemma ExampleEmptyToken()
    ensures TransposeToken("", 1, 3, STANDARD) == ""
  {
    assert DigitPrefix(TrimStart("")) == "";
  }

  /** A fret pushed below the nut comes back up an octave. */
  lemma ExampleBelowNut()
    ensures TransposeToken("1", 2, -3, STANDARD) == "10"
  {
    ParseIntDigits("1");
    assert FormatInt(10) == "10";
  }

  /** Distance 0 respells "02" without its leading zero. */
  lemma ExampleZeroLeadingZero()
    ensures TransposeToken("02", 1, 0, STANDARD) == "2"
  {
    ParseIntDigits("02");
    assert DigitsValue("02") == 2;
    assert FormatInt(2) == "2";
  }

  /** Distance 0 raises "-1" to fret 11. */
  lemma ExampleZeroNegative()
    ensures TransposeToken("-1", 1, 0, STANDARD) == "11"
  {
    ParseIntNegative("-1");
    assert DigitsValue("1") == 1;
    assert FormatInt(11) == "11";
  }
}
