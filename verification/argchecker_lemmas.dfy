/** Properties relating the argument checkers' operations to each other. */
module ArgCheckerProperties {
  import opened Wrappers
  import opened ArgCheckers
  import Arith

  /** A text is read in the first base, in the checker's order, that reads it, and the
      value is then checked against the bounds; no later base is consulted. */
  lemma FirstBaseWins(bases: seq<nat>, minimum: Option<int>, maximum: Option<int>, s: string, k: nat, n: int)
    requires k < |bases| && ParseInt(s, bases[k]) == Some(n)
    requires forall j | 0 <= j < k :: ParseInt(s, bases[j]).None?
    ensures IntegerValue(bases, minimum, maximum, StrV(s)) ==
              if (minimum.None? || minimum.value <= n) && (maximum.None? || n <= maximum.value) then Ok(IntV(n))
              else Err(ValueError)
  {
  }

  /** Converting a converted value again changes nothing: the string and the integer
      checkers hand back values they accept as they are. */
  lemma ConversionIsIdempotent(minLen: nat, maxLen: Option<nat>, bases: seq<nat>,
                               minimum: Option<int>, maximum: Option<int>, v: Value)
    ensures StringValue(minLen, maxLen, v).Ok? ==>
              StringValue(minLen, maxLen, StringValue(minLen, maxLen, v).value) == StringValue(minLen, maxLen, v)
    ensures IntegerValue(bases, minimum, maximum, v).Ok? ==>
              IntegerValue(bases, minimum, maximum, IntegerValue(bases, minimum, maximum, v).value)
                == IntegerValue(bases, minimum, maximum, v)
  {
  }

  /** A list checker built by `listArgChecker` accepts any token list whose length is a
      multiple of the inner size within its bounds, provided the inner checker accepts
      every group, and returns one value per group. */
  lemma NewListReadsWholeGroups(inner: Checker, minSize: Option<int>, maxSize: Option<int>, vals: seq<Value>)
    requires Valid(inner) && NewList(inner, minSize, maxSize).Ok?
    requires |vals| % inner.minSize.value == 0
    requires (minSize.None? || minSize.value <= |vals|) && (maxSize.None? || |vals| <= maxSize.value)
    requires forall i | 0 <= i < |Chunks(vals, inner.minSize.value)| :: GetValue(inner, Chunks(vals, inner.minSize.value)[i]).Ok?
    ensures GetValue(NewList(inner, minSize, maxSize).value, ListV(vals)).Ok?
    ensures |GetValue(NewList(inner, minSize, maxSize).value, ListV(vals)).value.items| == |vals| / inner.minSize.value
  {
    var c := NewList(inner, minSize, maxSize).value;
    var k := inner.minSize.value;
    assert ReadCount(c.maxSize, |vals|) == |vals|;
    assert vals[..|vals|] == vals;
    assert PadCount(c.minSize, |vals|, k) == 0;
  }

  /** The default integer checker reads the decimal rendering of any integer back as
      that integer, because base 10 is tried first. */
  lemma DecimalTokensReadAsDecimal(n: int)
    ensures NewInteger(None, None).Ok?
    ensures GetValue(NewInteger(None, None).value, StrV(IntToString(n))) == Ok(IntV(n))
  {
    IntToStringRoundTrip(n);
  }

  /** The hexadecimal checker reads back the base-16 digits of any natural number. */
  lemma HexaRoundTrip(n: nat)
    ensures NewHexa(None, None).Ok?
    ensures GetValue(NewHexa(None, None).value, StrV(RenderDigits(n, 16))) == Ok(IntV(n))
  {
    var s := RenderDigits(n, 16);
    ParseRenderDigits(n, 16);
    FirstDigitIsDigit(n, 16);
    if |s| > 1 {
      LeadingDigitNonZero(n, 16);
    }
    assert ParseInt(s, 16) == Some(n);
    FirstBaseWins([16], None, None, s, 0, n);
  }

  /** A rendering of more than one digit does not start with `0`. */
  lemma {:induction false} LeadingDigitNonZero(n: nat, b: nat)
    requires 2 <= b <= 36 && |RenderDigits(n, b)| > 1
    ensures RenderDigits(n, b)[0] != '0'
    decreases n
  {
    Arith.DivModIdentity(n, b);
    Arith.DivShrinks(n, b);
    var q := n / b;
    assert q >= 1;
    assert RenderDigits(n, b)[0] == RenderDigits(q, b)[0];
    if q >= b {
      LeadingDigitNonZero(q, b);
    }
  }

  /** The order of bases decides: "11" is eleven to the default checker, seventeen to
      the hexadecimal one and three to the binary one; "ff" is only hexadecimal. */
  lemma BaseOrderMatters()
    ensures NewInteger(None, None).Ok? && NewHexa(None, None).Ok? && NewBinary(None, None).Ok?
    ensures GetValue(NewInteger(None, None).value, StrV("11")) == Ok(IntV(11))
    ensures GetValue(NewHexa(None, None).value, StrV("11")) == Ok(IntV(17))
    ensures GetValue(NewBinary(None, None).value, StrV("11")) == Ok(IntV(3))
    ensures GetValue(NewInteger(None, None).value, StrV("ff")) == Ok(IntV(255))
    ensures GetValue(NewBinary(None, None).value, StrV("ff")) == Err(ValueError)
  {
    IntegerReadsDecimalFirst();
    IntegerFallsBackToHex();
    HexAndBinaryRead();
  }

  /** The default checker tries base ten first. */
  lemma IntegerReadsDecimalFirst()
    ensures NewInteger(None, None).Ok?
    ensures GetValue(NewInteger(None, None).value, StrV("11")) == Ok(IntV(11))
  {
    assert ParseDigits("1", 10) == Some(1);
    assert ParseInt("11", 10) == Some(11);
    assert FirstParse("11", DefaultBases) == Some((0, 11));
  }

  /** What base ten refuses, the default checker reads in base sixteen. */
  lemma IntegerFallsBackToHex()
    ensures NewInteger(None, None).Ok?
    ensures GetValue(NewInteger(None, None).value, StrV("ff")) == Ok(IntV(255))
  {
    assert ParseInt("ff", 10) == None;
    assert ParseDigits("f", 16) == Some(15);
    assert ParseInt("ff", 16) == Some(255);
    assert FirstParse("ff", DefaultBases[1..]) == Some((0, 255));
    assert FirstParse("ff", DefaultBases) == Some((1, 255));
  }

  /** The single-base checkers read "11" in their own base only. */
  lemma HexAndBinaryRead()
    ensures NewHexa(None, None).Ok? && NewBinary(None, None).Ok?
    ensures GetValue(NewHexa(None, None).value, StrV("11")) == Ok(IntV(17))
    ensures GetValue(NewBinary(None, None).value, StrV("11")) == Ok(IntV(3))
    ensures GetValue(NewBinary(None, None).value, StrV("ff")) == Err(ValueError)
  {
    assert ParseDigits("1", 16) == Some(1);
    assert ParseInt("11", 16) == Some(17);
    assert FirstParse("11", [16]) == Some((0, 17));
    assert ParseDigits("1", 2) == Some(1);
    assert ParseInt("11", 2) == Some(3);
    assert FirstParse("11", [2]) == Some((0, 3));
    assert ParseInt("ff", 2) == None;
    assert FirstParse("ff", [2]) == None;
  }

  /** A limited-integer checker accepts an integer exactly when it fits the word. */
  lemma LimitedIntegerAccepts(bits: int, signed: bool, n: int)
    requires NewLimitedInteger(bits, signed).Ok?
    ensures var c := NewLimitedInteger(bits, signed).value;
            GetValue(c, IntV(n)).Ok? <==>
              if signed then -(Pow2(bits - 1) as int) <= n < Pow2(bits - 1)
              else 0 <= n < Pow2(bits)
  {
  }

  /** An eight-bit word: 0..255 unsigned, -128..127 signed; 12 bits is refused. */
  lemma ByteBounds()
    ensures NewLimitedInteger(8, false).Ok? && NewLimitedInteger(8, true).Ok?
    ensures GetValue(NewLimitedInteger(8, false).value, IntV(255)).Ok?
    ensures GetValue(NewLimitedInteger(8, false).value, IntV(256)).Err?
    ensures GetValue(NewLimitedInteger(8, true).value, IntV(-128)).Ok?
    ensures GetValue(NewLimitedInteger(8, true).value, IntV(128)).Err?
    ensures NewLimitedInteger(12, false).Err?
  {
    assert IsPowerOfTwo(8);
    assert Pow2(7) == 128 && Pow2(8) == 256;
    assert !IsPowerOfTwo(12) by {
      assert !IsPowerOfTwo(3);
    }
  }

  /** Setting a default and erasing it leaves the checker as erasing alone does; a set
      default is the one read back. */
  lemma SetEraseDefault(c: Checker, v: Value)
    requires Valid(c) && SetDefaultValue(c, v).Ok?
    ensures EraseDefaultValue(SetDefaultValue(c, v).value) == EraseDefaultValue(c)
    ensures c.defaultEnabled && !c.kind.ListKind? ==>
              GetDefaultValue(SetDefaultValue(c, v).value) == Ok(SetDefaultValue(c, v).value.default)
    ensures c.kind.ListKind? ==> GetDefaultValue(SetDefaultValue(c, v).value) == Ok(SetDefaultValue(c, v).value.default)
  {
  }

  /** A list shorter than the minimum that is accepted comes back with exactly
      `minimumSize` values: the chunks read plus `minimumSize - len / k` defaults. */
  lemma ListPaddedLength(inner: Checker, minSize: Option<nat>, maxSize: Option<nat>, v: Value)
    requires Valid(inner) && inner.minSize.Some? && inner.minSize.value > 0
    requires minSize.Some? && |Tokens(v)| < minSize.value
    requires maxSize.None? || minSize.value <= maxSize.value
    requires ListValue(inner, minSize, maxSize, v).Ok?
    ensures |ListValue(inner, minSize, maxSize, v).value.items| == minSize.value
  {
    var vals := Tokens(v);
    assert vals[..ReadCount(maxSize, |vals|)] == vals;
  }

  /** Tokens past `maximumSize` are never read: the list checker gives the same answer
      on the first `maximumSize` tokens alone. */
  lemma ListIgnoresSurplus(inner: Checker, minSize: Option<nat>, max: nat, vals: seq<Value>)
    requires Valid(inner) && inner.minSize.Some? && inner.minSize.value > 0
    requires max % inner.minSize.value == 0 && |vals| % inner.minSize.value == 0
    requires minSize.None? || minSize.value <= max
    requires max <= |vals|
    ensures ListValue(inner, minSize, Some(max), ListV(vals)) == ListValue(inner, minSize, Some(max), ListV(vals[..max]))
  {
    assert vals[..max][..max] == vals[..max];
  }

  /** A list checker over a one-token checker converts each token once, in order. */
  lemma ListOfSingles(inner: Checker, vals: seq<Value>)
    requires Valid(inner) && inner.minSize == Some(1) == inner.maxSize
    requires ListValue(inner, None, None, ListV(vals)).Ok?
    ensures var r := ListValue(inner, None, None, ListV(vals)).value;
            |r.items| == |vals| && forall i | 0 <= i < |vals| :: Ok(r.items[i]) == GetValue(inner, vals[i])
  {
    assert vals[..|vals|] == vals;
    ChunksCover(vals, 1);
  }

  /** A list checker of exactly one element shows the usage of its inner checker; one
      with a minimum shows that usage first. */
  lemma ListUsageStartsWithInner(c: Checker)
    requires Valid(c) && c.kind.ListKind?
    ensures c.minSize == Some(1) && c.maxSize == Some(1) ==> Usage(c) == Usage(c.kind.inner)
    ensures c.minSize.Some? && c.minSize.value >= 1 ==>
              |Usage(c)| >= |Usage(c.kind.inner)| && Usage(c)[..|Usage(c.kind.inner)|] == Usage(c.kind.inner)
  {
  }
}
