/**
 * The Barcode Battler decoder: `BarcodeBattlerItem.Load` and its helpers.
 *
 * A barcode is 13 decimal digits, positions 0..12.  Load picks one of two
 * stat layouts (the "first" layout reads HP, ST and DF from the leading
 * digits, the "last" layout from digits 8..11), classifies the card from
 * digit 12 and the character from digit 7 or digit 12, and returns the
 * five read-only properties of a BarcodeBattlerItem.  Everything is a pure
 * function of the digits.
 */
module BarcodeBattler {
  import opened Decimal

  /** BarcodeBattlerCardType. */
  datatype CardType = Character | ItemST | ItemDF | ItemHP

  /** BarcodeBattlerCharacterType. */
  datatype CharacterType = Machine | Animal | Fish | Bird | Human | Unknown

  /** The (hp, st, df) triple that ReadFromFirst and ReadFromLast return. */
  datatype Stats = Stats(hp: int, st: int, df: int)

  /** A decoded card: the five get-only properties set by the private constructor. */
  datatype Item = Item(cardType: CardType, characterType: CharacterType, hp: int, st: int, df: int)

  /** Thirteen digits, positions 0..12: the digits that `^[0-9]{13}$` requires (a trailing newline the pattern also admits is never read). */
  type Barcode = b: seq<Digit> | |b| == 13 witness [0, 0, 0, 0, 0, 0, 0, 0, 0, 0, 0, 0, 0]

  /** A stat that is a whole number of hundreds, as every stat of a card is. */
  predicate Hundreds(x: int)
  {
    0 <= x && x % 100 == 0
  }

  /** Branch choice: the first layout is used when digit 2 is 9 and digit 9 is 5, that is, when the two digits read together spell 95. */
  predicate IsFirst(b: Barcode)
    ensures IsFirst(b) <==> Value([b[2], b[9]]) == 95
  {
    b[2] == 9 && b[9] == 5
  }

  /** Card classification from digit 12; every digit outside 5..9 is a Character card. */
  function GetCardType(b: Barcode): (c: CardType)
    ensures c == Character <==> b[12] <= 4
  {
    match b[12]
    case 5 | 6 => ItemST
    case 7 | 8 => ItemDF
    case 9 => ItemHP
    case _ => Character
  }

  /** Character classification from digit 7 (first layout) or digit 12 (last layout). */
  function GetCharacterType(b: Barcode, isFirst: bool): (t: CharacterType)
    ensures t == Unknown <==> (if isFirst then b[7] else b[12]) >= 5
  {
    var value := if isFirst then b[7] else b[12];
    match value
    case 0 => Machine
    case 1 => Animal
    case 2 => Fish
    case 3 => Bird
    case 4 => Human
    case _ => Unknown
  }

  /**
   * The source's `t > limit ? t - 10 : t`.  When t lies within ten of the
   * window (limit - 9 .. limit], the result is the one number of that window
   * congruent to t modulo 10.
   */
  function Wrap(t: int, limit: int): (r: int)
    ensures limit - 9 <= t <= limit + 10 ==> limit - 9 <= r <= limit && (t - r) % 10 == 0
  {
    if t > limit then t - 10 else t
  }

  /** ST thousands table of item cards; every digit maps to 1 (5..8) or 2, the default arm only outside 0..9. */
  function GetST(value: int): (r: int)
    ensures 0 <= value <= 9 ==> r == if 5 <= value <= 8 then 1 else 2
    ensures !(0 <= value <= 9) ==> r == 0
  {
    match value
    case 5 | 6 | 7 | 8 => 1
    case 9 | 0 | 1 | 2 => 2
    case 3 | 4 => 2
    case _ => 0
  }

  /** DF thousands table of item cards: 0 for 3..6, 2 for 1 and 2, 1 for 7, 8, 9 and 0. */
  function GetDF(value: int): (r: int)
    ensures 0 <= value <= 9 ==> r == if 3 <= value <= 6 then 0 else if value == 1 || value == 2 then 2 else 1
    ensures !(0 <= value <= 9) ==> r == 0
  {
    match value
    case 3 | 4 | 5 | 6 => 0
    case 7 | 8 | 9 | 0 => 1
    case 1 | 2 => 2
    case _ => 0
  }

  /**
   * First layout: HP, ST and DF are hundreds read from digits 0..2, 3..4 and
   * 5..6; from HP 20000 up, digit 7 adds 10000 to ST (0), DF (1) or both
   * (2); non-Character cards are then clamped to 99900 / 9900 / 9900.
   */
  function ReadFromFirst(b: Barcode, cardType: CardType): (s: Stats)
    ensures Hundreds(s.hp) && Hundreds(s.st) && Hundreds(s.df)
    ensures s.hp <= 99900
    ensures cardType != Character ==> s.st <= 9900 && s.df <= 9900
    ensures cardType == Character ==> s.st <= 19900 && s.df <= 19900
  {
    var hp := Value(b[0..3]) * 100;
    var st := Value(b[3..5]) * 100;
    var df := Value(b[5..7]) * 100;
    var (st', df') :=
      if hp >= 20000 then
        match b[7]
        case 0 => (st + 10000, df)
        case 1 => (st, df + 10000)
        case 2 => (st + 10000, df + 10000)
        case _ => (st, df)
      else (st, df);
    if cardType != Character then
      Stats(if hp > 99900 then 99900 else hp,
            if st' > 9900 then 9900 else st',
            if df' > 9900 then 9900 else df')
    else
      Stats(hp, st', df')
  }

  /** hi * 10000 + th * 1000 + hu * 100 written out in decimal has the digits hi, th, hu, 0, 0. */
  lemma PlaceValues(hi: nat, th: Digit, hu: Digit)
    ensures var x := hi * 10000 + th * 1000 + hu * 100;
      x % 100 == 0 && x / 100 % 10 == hu && x / 1000 % 10 == th && x / 10000 == hi
  {
    var x := hi * 10000 + th * 1000 + hu * 100;
    var q := 10 * (10 * hi + th) + hu;
    assert x == 100 * q;
    HundredsOf(q);
    DivModTen(10 * hi + th, hu);
    DivModTen(hi, th);
    DivTen(q);
    assert x / 1000 == (10 * hi + th) by { assert x / 1000 == q / 10; }
    assert x / 10000 == hi by { assert x / 10000 == (10 * hi + th) / 10; }
  }

  /** 100 * q is a whole number of hundreds, q of them. */
  lemma HundredsOf(q: nat)
    ensures (100 * q) % 100 == 0 && (100 * q) / 100 == q
  {
  }

  /** Dividing by 1000 and by 10000 is dividing by 100 and then by 10, once or twice. */
  lemma DivTen(q: nat)
    ensures (100 * q) / 1000 == q / 10 && (100 * q) / 10000 == q / 100 && q / 100 == (q / 10) / 10
  {
  }

  /**
   * Last layout, from d9..d12 = digits 8..11.  HP's hundreds and thousands
   * are digits 9 and 10, its ten-thousands digit 11 halved (Character) or
   * divided by 8 (items).  ST and DF are thousands and hundreds factors,
   * each a digit shifted round modulo 10 or looked up in GetST/GetDF; a
   * hundreds factor of 10 carries into the thousands.
   */
  function ReadFromLast(b: Barcode, cardType: CardType): (s: Stats)
    ensures Hundreds(s.hp) && Hundreds(s.st) && Hundreds(s.df)
    ensures s.hp / 100 % 10 == b[9] && s.hp / 1000 % 10 == b[10]
    ensures cardType == Character ==>
      s.hp / 10000 == b[11] / 2 && s.hp <= 49900 && 2100 <= s.st <= 12000 && 1100 <= s.df <= 11000
    ensures cardType != Character ==>
      s.hp / 10000 == b[11] / 8 && s.hp <= 19900 && 1100 <= s.st <= 3000 && 100 <= s.df <= 3000
  {
    var d12: int := b[11];
    var d11: int := b[10];
    var d10: int := b[9];
    var d9: int := b[8];
    if cardType == Character then
      var hp := (d12 / 2) * 10000 + d11 * 1000 + d10 * 100;
      PlaceValues(d12 / 2, d11, d10);
      var st := Wrap(d11 + 7, 11) * 1000 + Wrap(d10 + 5, 10) * 100;
      var df := Wrap(d10 + 7, 10) * 1000 + Wrap(d9 + 7, 10) * 100;
      Stats(hp, st, df)
    else
      var hp := (d12 / 8) * 10000 + d11 * 1000 + d10 * 100;
      PlaceValues(d12 / 8, d11, d10);
      var st := GetST(d11) * 1000 + Wrap(d10 + 5, 10) * 100;
      var df := GetDF(d10) * 1000 + Wrap(d9 + 7, 10) * 100;
      Stats(hp, st, df)
  }

  /**
   * The decoder.  Both stat readers are evaluated for every barcode; the
   * branch choice decides which triple the item carries.
   */
  function Load(b: Barcode): (item: Item)
    ensures item.cardType == GetCardType(b)
    ensures item.characterType == GetCharacterType(b, IsFirst(b))
    ensures Stats(item.hp, item.st, item.df)
            == if IsFirst(b) then ReadFromFirst(b, item.cardType) else ReadFromLast(b, item.cardType)
    ensures Hundreds(item.hp) && Hundreds(item.st) && Hundreds(item.df)
    ensures item.hp <= 99900 && item.st <= 19900 && item.df <= 19900
    ensures item.cardType != Character ==> item.st <= 9900 && item.df <= 9900
  {
    var isFirst := IsFirst(b);
    var cardType := GetCardType(b);
    var charType := GetCharacterType(b, isFirst);
    var statusF := ReadFromFirst(b, cardType);
    var statusL := ReadFromLast(b, cardType);
    if isFirst
    then Item(cardType, charType, statusF.hp, statusF.st, statusF.df)
    else Item(cardType, charType, statusL.hp, statusL.st, statusL.df)
  }
}
