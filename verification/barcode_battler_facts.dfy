/**
 * What the decoder promises about the cards it reads: which digits decide
 * the branch, the card type and the character type, what the two stat
 * layouts mean digit by digit, the caps and how far the stats can reach.
 */
module BarcodeBattlerFacts {
  import opened Decimal
  import opened BarcodeBattler

  /** Digit 7 gives the first layout's ST bonus (0 or 2) once digits 0..2 read 200 or more. */
  predicate GetsSTBonus(b: Barcode)
  {
    b[0] >= 2 && (b[7] == 0 || b[7] == 2)
  }

  /** Digit 7 gives the first layout's DF bonus (1 or 2) once digits 0..2 read 200 or more. */
  predicate GetsDFBonus(b: Barcode)
  {
    b[0] >= 2 && (b[7] == 1 || b[7] == 2)
  }

  /** Only digits 2 and 9 take part in choosing the layout. */
  lemma BranchDependsOnlyOnDigits2And9(b: Barcode, b': Barcode)
    requires b[2] == b'[2] && b[9] == b'[9]
    ensures IsFirst(b) == IsFirst(b')
    ensures IsFirst(b) <==> b[2] == 9 && b[9] == 5
  {
  }

  /** The card type table, read from digit 12 whatever the layout. */
  lemma CardTypeTable(b: Barcode)
    ensures Load(b).cardType == ItemST <==> b[12] == 5 || b[12] == 6
    ensures Load(b).cardType == ItemDF <==> b[12] == 7 || b[12] == 8
    ensures Load(b).cardType == ItemHP <==> b[12] == 9
    ensures Load(b).cardType == Character <==> b[12] <= 4
  {
  }

  /** Two barcodes that share digit 12 have the same card type, even when they use different layouts. */
  lemma CardTypeDependsOnlyOnDigit12(b: Barcode, b': Barcode)
    requires b[12] == b'[12]
    ensures Load(b).cardType == Load(b').cardType
  {
  }

  /** The character type table: digit 7 in the first layout, digit 12 in the last. */
  lemma CharacterTypeTable(b: Barcode)
    ensures var v := if IsFirst(b) then b[7] else b[12];
      (v < 5 ==> Load(b).characterType == [Machine, Animal, Fish, Bird, Human][v]) &&
      (v >= 5 ==> Load(b).characterType == Unknown)
  {
  }

  /**
   * In the last layout the same digit 12 decides both classifications, so
   * the character type is Unknown exactly on item cards, and a Character
   * card always has a known character type.
   */
  lemma LastLayoutUnknownExactlyOnItems(b: Barcode)
    requires !IsFirst(b)
    ensures Load(b).characterType == Unknown <==> Load(b).cardType != Character
  {
  }

  /**
   * The first layout, digit by digit.  HP is digits 0..2 in hundreds (its
   * clamp never fires); ST and DF are digits 3..4 and 5..6 in hundreds, plus
   * 10000 where digit 7 grants the bonus, except that on an item card a
   * bonus lands exactly on the 9900 cap and nothing else is changed by it.
   */
  lemma {:induction false} ReadFromFirstMeaning(b: Barcode, cardType: CardType)
    ensures var s := ReadFromFirst(b, cardType);
      var st, df := 100 * Value(b[3..5]), 100 * Value(b[5..7]);
      s.hp == 100 * Value(b[0..3]) &&
      (cardType == Character ==>
        s.st == st + (if GetsSTBonus(b) then 10000 else 0) &&
        s.df == df + (if GetsDFBonus(b) then 10000 else 0)) &&
      (cardType != Character ==>
        s.st == (if GetsSTBonus(b) then 9900 else st) &&
        s.df == (if GetsDFBonus(b) then 9900 else df))
  {
    ValueOfThree(b[0..3]);
  }

  /** In the first layout, HP shows digits 0..2 of the barcode, the last of them the 9 that chose the layout. */
  lemma {:induction false} FirstLayoutHpShowsDigits(b: Barcode)
    requires IsFirst(b)
    ensures Load(b).hp % 100 == 0
    ensures Digits(Load(b).hp / 100, 3) == b[0..3]
    ensures Load(b).hp / 100 % 10 == 9
  {
    ReadFromFirstMeaning(b, Load(b).cardType);
    DigitsOfValue(b[0..3]);
    ValueOfThree(b[0..3]);
  }

  /**
   * The first layout's bonus follows the character type that digit 7 also
   * gives: a Machine gains ST, an Animal DF, a Fish both, the rest nothing.
   */
  lemma {:induction false} FirstLayoutBonusFollowsCharacterType(b: Barcode)
    requires IsFirst(b) && b[0] >= 2 && Load(b).cardType == Character
    ensures var item, st, df := Load(b), 100 * Value(b[3..5]), 100 * Value(b[5..7]);
      (item.characterType == Machine ==> item.st == st + 10000 && item.df == df) &&
      (item.characterType == Animal ==> item.st == st && item.df == df + 10000) &&
      (item.characterType == Fish ==> item.st == st + 10000 && item.df == df + 10000) &&
      (item.characterType !in {Machine, Animal, Fish} ==> item.st == st && item.df == df)
  {
    ReadFromFirstMeaning(b, Character);
  }

  /** The three wrapped factors of the last layout, as reference formulas modulo 10. */
  lemma LastLayoutFactors(d: Digit)
    ensures Wrap(d + 7, 11) == (d + 5) % 10 + 2 && 2 <= Wrap(d + 7, 11) <= 11
    ensures Wrap(d + 5, 10) == (d + 4) % 10 + 1 && 1 <= Wrap(d + 5, 10) <= 10
    ensures Wrap(d + 7, 10) == (d + 6) % 10 + 1 && 1 <= Wrap(d + 7, 10) <= 10
  {
  }

  /**
   * The last layout's ST and DF in closed form: each is a thousands factor
   * times 1000 plus a hundreds factor times 100, where a factor is a digit
   * shifted round modulo 10 (Character cards) or looked up in the ST and DF
   * tables (item cards).  A hundreds factor of 10 carries into the thousands.
   */
  lemma ReadFromLastMeaning(b: Barcode, cardType: CardType)
    ensures var s := ReadFromLast(b, cardType);
      var d9: int := b[8];
      var d10: int := b[9];
      var d11: int := b[10];
      (cardType == Character ==>
        s.st == ((d11 + 5) % 10 + 2) * 1000 + ((d10 + 4) % 10 + 1) * 100 &&
        s.df == ((d10 + 6) % 10 + 1) * 1000 + ((d9 + 6) % 10 + 1) * 100) &&
      (cardType != Character ==>
        s.st == (if 5 <= d11 <= 8 then 1 else 2) * 1000 + ((d10 + 4) % 10 + 1) * 100 &&
        s.df == (if 3 <= d10 <= 6 then 0 else if d10 == 1 || d10 == 2 then 2 else 1) * 1000
                + ((d9 + 6) % 10 + 1) * 100)
  {
    LastLayoutFactors(b[8]);
    LastLayoutFactors(b[9]);
    LastLayoutFactors(b[10]);
  }

  /** Uncapped Character cards of the first layout reach 19900 in both ST and DF. */
  lemma CharacterCardReaches19900()
    ensures exists b: Barcode :: Load(b).cardType == Character && Load(b).st == 19900 && Load(b).df == 19900
  {
    var b: Barcode := [9, 9, 9, 9, 9, 9, 9, 2, 0, 5, 0, 0, 0];
    assert IsFirst(b);
    ValueOfTwo(b[3..5]);
    ValueOfTwo(b[5..7]);
    ReadFromFirstMeaning(b, Character);
    assert Load(b).st == 19900 && Load(b).df == 19900;
  }

  /** The ST thousands factor's threshold of 11 lets a last-layout Character card reach ST 12000. */
  lemma LastLayoutCharacterReaches12000()
    ensures exists b: Barcode :: !IsFirst(b) && Load(b).cardType == Character && Load(b).st == 12000
  {
    var b: Barcode := [0, 0, 0, 0, 0, 0, 0, 0, 0, 5, 4, 0, 0];
    assert Load(b).st == 12000;
  }

  /**
   * A hundreds factor of 10 carries: digits 8..11 = 3, 5, 0, 0 on a
   * Character card give ST factors 7 and 10, so ST is 8000, not 7000 + a
   * hundreds digit.
   */
  lemma LastLayoutHundredsFactorCarries()
    ensures var b: Barcode := [0, 0, 0, 0, 0, 0, 0, 0, 3, 5, 0, 0, 0];
      !IsFirst(b) && Load(b).cardType == Character && Load(b).st == 8000 && Load(b).df == 3000
  {
  }

  /** A last-layout item card: 0010203040506 decodes to ItemST, Unknown, HP 5000, ST 1500, DF 1100. */
  lemma DecodesLastLayoutItem()
    ensures Load([0, 0, 1, 0, 2, 0, 3, 0, 4, 0, 5, 0, 6]) == Item(ItemST, Unknown, 5000, 1500, 1100)
  {
  }

  /** A first-layout item card: 2593045005005 decodes to ItemST, Machine, HP 25900, ST 9900 (capped), DF 4500. */
  lemma DecodesFirstLayoutItem()
    ensures Load([2, 5, 9, 3, 0, 4, 5, 0, 0, 5, 0, 0, 5]) == Item(ItemST, Machine, 25900, 9900, 4500)
  {
    var b: Barcode := [2, 5, 9, 3, 0, 4, 5, 0, 0, 5, 0, 0, 5];
    ValueOfThree(b[0..3]);
    ValueOfTwo(b[3..5]);
    ValueOfTwo(b[5..7]);
  }
}
