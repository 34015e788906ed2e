/** What `sizeBucket` makes of the parameter strings `transformModel`
 *  writes: the size filter reads the text back, so these lemmas connect the
 *  two ends of the pipeline. A count below a million is written without a
 *  unit and read back as billions, which puts a 70-parameter model among the
 *  huge ones. */
module ParameterText {
  import opened Base
  import opened Text
  import opened ModelUtils
  import opened Acquisition

  predicate Numeric(s: string) {
    forall i :: 0 <= i < |s| ==> IsNumericChar(s[i])
  }

  lemma TenthsNumeric(t: nat)
    ensures Numeric(Tenths(t))
  {
    var w := NatToString(t / 10);
    assert Tenths(t) == w + "." + [DigitChar(t % 10)];
    forall i | 0 <= i < |Tenths(t)| ensures IsNumericChar(Tenths(t)[i]) {
      if i < |w| {
        assert Tenths(t)[i] == w[i];
      }
    }
  }

  /** A number followed by a unit letter: the filter keeps the number, and
   *  every other character of the text is a number character. */
  lemma NumberWithUnit(number: string, unit: char)
    requires Numeric(number) && !IsNumericChar(unit)
    ensures SizeNumber(number + [unit]) == ParseDecimal(number)
    ensures forall i :: 0 <= i < |number + [unit]| - 1 ==> IsNumericChar((number + [unit])[i])
  {
    FilterSnoc(number, unit, IsNumericChar);
    assert forall x :: x in number ==> IsNumericChar(x);
    FilterAllPass(number, IsNumericChar);
    assert Filter(number + [unit], IsNumericChar) == number;
  }

  /** A letter that is neither a number character nor the unit does not
   *  occur; the unit does. */
  lemma UnitLetters(number: string, unit: char, other: char)
    requires Numeric(number) && !IsNumericChar(other) && other != unit
    ensures Contains(number + [unit], [unit]) && !Contains(number + [unit], [other])
  {
    var s := number + [unit];
    ContainsChar(s, unit);
    ContainsChar(s, other);
    assert s[|number|] == unit;
    forall i | 0 <= i < |s| ensures s[i] != other {
      if i < |number| {
        assert s[i] == number[i];
      }
    }
  }

  /** "MoE" cannot occur in a number followed by one unit letter: its 'o' is
   *  neither. */
  lemma NoMoE(number: string, unit: char)
    requires Numeric(number) && !IsNumericChar(unit) && unit != 'o'
    ensures !Contains(number + [unit], "MoE")
  {
    var s := number + [unit];
    assert forall i :: 0 <= i < |s| ==> s[i] != 'o' by {
      forall i | 0 <= i < |s| ensures s[i] != 'o' {
        if i < |number| {
          assert s[i] == number[i];
        }
      }
    }
    if Contains(s, "MoE") {
      ContainsMember(s, "MoE", 1);
    }
  }

  /** Below a million the count is written bare and read back as billions:
   *  anything from 70 parameters up is classed huge. */
  lemma BareCountReadAsBillions(total: nat)
    requires 0 < total < 1_000_000
    ensures SizeBucket(FormatParams(Some(total))) == Some(BucketOf(total as real))
    ensures total >= 70 ==> SizeBucket(FormatParams(Some(total))) == Some(Huge)
  {
    var s := NatToString(total);
    assert FormatParams(Some(total)) == s;
    assert SizeNumber(s) == Some(total as real) by {
      assert forall x :: x in s ==> IsNumericChar(x);
      FilterAllPass(s, IsNumericChar);
      ParseNatString(total);
    }
    assert !Contains(s, "T") && !Contains(s, "B") && !Contains(s, "M") by {
      ContainsChar(s, 'T');
      ContainsChar(s, 'B');
      ContainsChar(s, 'M');
      assert 'T' !in s && 'B' !in s && 'M' !in s;
    }
  }

  /** Tenths followed by 'T' or 'B': the number reads back, the unit is
   *  found and the other one is not. */
  lemma TenthsText(t: nat, unit: char, other: char, p: string)
    requires unit in "TB" && other in "TB" && unit != other && p == Tenths(t) + [unit]
    ensures SizeNumber(p) == Some(t as real / 10.0)
    ensures Contains(p, [unit]) && !Contains(p, [other])
  {
    TenthsNumeric(t);
    NumberWithUnit(Tenths(t), unit);
    TenthsReadBack(t);
    UnitLetters(Tenths(t), unit, other);
  }

  /** Tenths followed by a unit letter are read in that unit. */
  lemma TenthsBucket(t: nat, unit: char, p: string)
    requires unit in "TB" && p == Tenths(t) + [unit]
    ensures SizeBucket(p) == Some(BucketOf(if unit == 'T' then t as real / 10.0 * 1000.0 else t as real / 10.0))
  {
    var other := if unit == 'T' then 'B' else 'T';
    TenthsText(t, unit, other, p);
    assert p[|p| - 1] != "Unknown"[6];
    assert p != "Unknown" && SizeNumber(p) == Some(t as real / 10.0);
    assert Contains(p, "T") <==> unit == 'T';
    assert Contains(p, "B") <==> unit == 'B';
  }

  /** Whole millions followed by 'M': the number reads back and only the 'M'
   *  of the three units is found, outside any "MoE". */
  lemma MillionsText(k: nat)
    ensures var p := NatToString(k) + "M";
            SizeNumber(p) == Some(k as real)
            && !Contains(p, "T") && !Contains(p, "B") && Contains(p, "M") && !Contains(p, "MoE")
  {
    var s := NatToString(k);
    assert Numeric(s);
    NumberWithUnit(s, 'M');
    ParseNatString(k);
    UnitLetters(s, 'M', 'T');
    UnitLetters(s, 'M', 'B');
    NoMoE(s, 'M');
  }

  lemma ReadAsMillions(p: string, v: real)
    requires p != "Unknown" && SizeNumber(p) == Some(v)
    requires !Contains(p, "T") && !Contains(p, "B") && Contains(p, "M") && !Contains(p, "MoE")
    ensures SizeBucket(p) == Some(BucketOf(v / 1000.0))
  {
  }

  /** Counts of a trillion or more come back as the written tenths of
   *  trillions, in billions, which is always huge. */
  lemma TrillionsReadBack(total: nat)
    requires total >= 1_000_000_000_000
    ensures var t := RoundTenths(total, 1_000_000_000_000);
            SizeBucket(FormatParams(Some(total))) == Some(BucketOf(t as real / 10.0 * 1000.0))
    ensures SizeBucket(FormatParams(Some(total))) == Some(Huge)
  {
    var t := RoundTenths(total, 1_000_000_000_000);
    var p := FormatParams(Some(total));
    assert p == Tenths(t) + "T";
    TenthsBucket(t, 'T', p);
    AtLeastOneTrillion(total);
    assert t as real / 10.0 * 1000.0 >= 70.0;
  }

  lemma AtLeastOneTrillion(total: nat)
    requires total >= 1_000_000_000_000
    ensures RoundTenths(total, 1_000_000_000_000) >= 10
  {
    var t := RoundTenths(total, 1_000_000_000_000);
    assert t * 100_000_000_000 + 100_000_000_000 > total;
  }

  /** Counts from a billion to below a trillion come back as the written
   *  tenths of billions. */
  lemma BillionsReadBack(total: nat)
    requires 1_000_000_000 <= total < 1_000_000_000_000
    ensures var t := RoundTenths(total, 1_000_000_000);
            SizeBucket(FormatParams(Some(total))) == Some(BucketOf(t as real / 10.0))
  {
    var t := RoundTenths(total, 1_000_000_000);
    var p := FormatParams(Some(total));
    assert p == Tenths(t) + "B";
    TenthsBucket(t, 'B', p);
  }

  /** Counts from a million to below a billion come back as the written
   *  whole millions, in billions: tiny, except that 999.5 million and more
   *  round to "1000M", which is a full billion and small. */
  lemma MillionsReadBack(total: nat)
    requires 1_000_000 <= total < 1_000_000_000
    ensures var k := (total + 500_000) / 1_000_000;
            SizeBucket(FormatParams(Some(total))) == Some(BucketOf(k as real / 1000.0))
    ensures SizeBucket(FormatParams(Some(total))) == Some(if total < 999_500_000 then Tiny else Small)
  {
    var k := (total + 500_000) / 1_000_000;
    var p := FormatParams(Some(total));
    assert p == NatToString(k) + "M";
    MillionsText(k);
    ReadAsMillions(p, k as real);
    assert 1 <= k <= 1000 && (k < 1000 <==> total < 999_500_000);
  }
}
