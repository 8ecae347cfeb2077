# Barcode Battler decoder in Dafny

This project models the decoder of BarcodeBattlerApp. `BarcodeBattlerItem.Load` takes a 13-digit
barcode and returns a card. A card has a card type (Character, ItemST, ItemDF, ItemHP), a
character type (Machine, Animal, Fish, Bird, Human, Unknown) and three stats: HP, ST and DF.

The decoder first chooses a stat layout. The *first* layout is used when digit 2 is 9 and digit 9
is 5. It reads HP, ST and DF from digits 0..6, and digit 7 can add a bonus. The *last* layout
reads the stats from digits 8..11, through small wrap-around formulas and two lookup tables.
Digit 12 always gives the card type. The character type comes from digit 7 in the first layout
and from digit 12 in the last.

The decoder is pure, so the model is too: datatypes for the enumerations and for the card, and
one function per helper of the source.

- `Decimal` (decimal.dfy) gives the value of a run of digits. This is what `int.Parse` returns
  for the fields of a barcode. The module also proves the round trip with the fixed-width
  numeral.
- `BarcodeBattler` (barcode_battler_item.dfy) holds `IsFirst`, `GetCardType`,
  `GetCharacterType`, `GetST`, `GetDF`, `ReadFromFirst`, `ReadFromLast` and `Load`. The
  source's `t > limit ? t - 10 : t` expressions are written once, as `Wrap`.
- `BarcodeBattlerFacts` (barcode_battler_facts.dfy) proves what the decoder means: which
  digits decide what, the first layout digit by digit, the caps, how high the stats can go, and
  two decoded examples.

A barcode is `seq<Digit>` of length 13 (the type `Barcode`): the 13 digits that `Main`'s pattern
`^[0-9]{13}$` requires. Every helper is total on this type. This matters
because `Load` evaluates both stat readers for every barcode and only then chooses one.

In the last layout the source names the digits d12..d9, but they sit at positions 11..8. So
`0010203040506` decodes to HP 5000, ST 1500, DF 1100, as `DecodesLastLayoutItem` proves.

## Model

| member | source | states |
|---|---|---|
| Decimal.Value | BarcodeBattlerApp/Program.cs:36-38 | a field of k digits, read by `int.Parse`, has a value below 10^k |
| Decimal.ValueOfDigits | BarcodeBattlerApp/Program.cs:36-38 | reading back the k-digit numeral of n < 10^k gives n |
| Decimal.DigitsOfValue | BarcodeBattlerApp/Program.cs:36-38 | writing a field's value back at the same width gives the same digits |
| Decimal.ValueOfTwo | BarcodeBattlerApp/Program.cs:37-38 | a two-digit field is worth 10·first + second |
| Decimal.ValueOfThree | BarcodeBattlerApp/Program.cs:36 | a three-digit field is worth 100·first + 10·second + third |
| BarcodeBattler.IsFirst | BarcodeBattlerApp/Program.cs:171-176 | the first layout is chosen exactly when digits 2 and 9, read together as a two-digit field, spell 95 |
| BarcodeBattler.GetCardType | BarcodeBattlerApp/Program.cs:152-170 | the card is a Character exactly when digit 12 is 0..4 (the default arm) |
| BarcodeBattler.GetCharacterType | BarcodeBattlerApp/Program.cs:192-217 | the type is Unknown exactly when the digit read (7 in the first layout, 12 otherwise) is 5..9 |
| BarcodeBattler.Wrap | BarcodeBattlerApp/Program.cs:81-95 | for t within ten of the window (limit−9..limit], the result is the number in that window congruent to t modulo 10 |
| BarcodeBattler.GetST | BarcodeBattlerApp/Program.cs:126-150 | on a digit: 1 for 5..8 and 2 for every other digit, so the {9,0,1,2} and {3,4} arms agree; the default 0 only off the digits |
| BarcodeBattler.GetDF | BarcodeBattlerApp/Program.cs:100-124 | on a digit: 0 for 3..6, 2 for 1 and 2, 1 for 7, 8, 9 and 0; the default 0 only off the digits |
| BarcodeBattler.ReadFromFirst | BarcodeBattlerApp/Program.cs:34-69 | stats are non-negative hundreds; HP ≤ 99900; item cards are capped at ST, DF ≤ 9900; Character cards are uncapped and stay ≤ 19900 |
| BarcodeBattler.PlaceValues | BarcodeBattlerApp/Program.cs:80-91 | hi·10000 + th·1000 + hu·100 has the decimal digits hi, th, hu, 0, 0 |
| BarcodeBattler.ReadFromLast | BarcodeBattlerApp/Program.cs:71-98 | stats are non-negative hundreds; HP shows digit 9 in its hundreds and digit 10 in its thousands, with digit 11/2 (Character, HP ≤ 49900) or digit 11/8 (items, HP ≤ 19900) above; Character ST in 2100..12000 and DF in 1100..11000; item ST in 1100..3000 and DF in 100..3000 (exact values in `ReadFromLastMeaning`) |
| BarcodeBattler.Load | BarcodeBattlerApp/Program.cs:179-190 | the card type comes from GetCardType in both layouts; the character type comes from the digit chosen by the layout; the stats are ReadFromFirst's when IsFirst and ReadFromLast's otherwise; every stat is a non-negative multiple of 100, HP ≤ 99900, ST and DF ≤ 19900, and ≤ 9900 on item cards |
| BarcodeBattlerFacts.BranchDependsOnlyOnDigits2And9 | BarcodeBattlerApp/Program.cs:171-176 | the layout is first exactly when digit 2 is 9 and digit 9 is 5, and no other digit changes the choice |
| BarcodeBattlerFacts.CardTypeTable | BarcodeBattlerApp/Program.cs:152-170 | 5 or 6 gives ItemST, 7 or 8 ItemDF, 9 ItemHP, 0..4 Character, in both layouts |
| BarcodeBattlerFacts.CardTypeDependsOnlyOnDigit12 | BarcodeBattlerApp/Program.cs:179-190 | barcodes that share digit 12 get the same card type, even if they use different layouts |
| BarcodeBattlerFacts.CharacterTypeTable | BarcodeBattlerApp/Program.cs:192-217 | for the digit the layout picks: 0 Machine, 1 Animal, 2 Fish, 3 Bird, 4 Human, 5..9 Unknown |
| BarcodeBattlerFacts.LastLayoutUnknownExactlyOnItems | BarcodeBattlerApp/Program.cs:192-217 | in the last layout, the character type is Unknown exactly on item cards |
| BarcodeBattlerFacts.ReadFromFirstMeaning | BarcodeBattlerApp/Program.cs:34-69 | first layout: HP = 100 × digits 0..2, and its clamp never fires; ST and DF = 100 × digits 3..4 and 5..6; the 10000 bonus applies only when digit 0 ≥ 2 (HP ≥ 20000): digit 7 = 0 gives it to ST, 1 to DF, 2 to both; on item cards a bonus lands exactly on the 9900 cap, and values without a bonus are unchanged |
| BarcodeBattlerFacts.FirstLayoutHpShowsDigits | BarcodeBattlerApp/Program.cs:36 | in the first layout, HP/100 written with three digits is digits 0..2 of the barcode, ending in 9 |
| BarcodeBattlerFacts.FirstLayoutBonusFollowsCharacterType | BarcodeBattlerApp/Program.cs:39-59 | on a first-layout Character card with HP ≥ 20000, a Machine gains 10000 ST, an Animal 10000 DF, a Fish both, and any other type gains nothing |
| BarcodeBattlerFacts.LastLayoutFactors | BarcodeBattlerApp/Program.cs:81-95 | the ST thousands factor is (d + 5) mod 10 + 2, in 2..11; the other wrapped factors are (d + 4) mod 10 + 1 and (d + 6) mod 10 + 1, in 1..10 |
| BarcodeBattlerFacts.ReadFromLastMeaning | BarcodeBattlerApp/Program.cs:71-98 | last layout, exact values: Character ST = ((d11+5) mod 10 + 2)·1000 + ((d10+4) mod 10 + 1)·100 and DF = ((d10+6) mod 10 + 1)·1000 + ((d9+6) mod 10 + 1)·100; item ST = (1 if d11 is 5..8, else 2)·1000 + ((d10+4) mod 10 + 1)·100 and DF = (GetDF's table on d10)·1000 + ((d9+6) mod 10 + 1)·100, with d9, d10, d11 the digits at positions 8, 9, 10 |
| BarcodeBattlerFacts.LastLayoutHundredsFactorCarries | BarcodeBattlerApp/Program.cs:81-86 | a hundreds factor of 10 carries: digits 8..11 = 3, 5, 0, 0 on a Character card give ST 8000 and DF 3000 |
| BarcodeBattlerFacts.CharacterCardReaches19900 | BarcodeBattlerApp/Program.cs:39-66 | some Character card has ST = DF = 19900, so the Character bound is attained |
| BarcodeBattlerFacts.LastLayoutCharacterReaches12000 | BarcodeBattlerApp/Program.cs:81-83 | some last-layout Character card has ST 12000, reached through the thousands factor 11 |
| BarcodeBattlerFacts.DecodesLastLayoutItem | BarcodeBattlerApp/Program.cs:179-190 | 0010203040506 decodes to ItemST, Unknown, HP 5000, ST 1500, DF 1100 |
| BarcodeBattlerFacts.DecodesFirstLayoutItem | BarcodeBattlerApp/Program.cs:179-190 | 2593045005005 decodes to ItemST, Machine, HP 25900, ST 9900 (bonus capped), DF 4500 |

## Left out

- `Program.Main` (argument reading, the regex match, console output, exit codes) is I/O. Its
  pattern `^[0-9]{13}$` survives only as the `Barcode` type. Without multiline mode, .NET's `$`
  also matches before a final newline, so `Main` accepts 13 digits followed by `\n`. `Load`
  reads only positions 0..12, so such a string decodes like its 13 digits; the model does not
  represent the newline.
- `int.Parse`, `Substring` and `ToString` are not modelled as .NET string parsing. A digit is
  an integer 0..9, and a multi-digit field is its base-10 value (`Decimal.Value`). On digit-only
  input `int.Parse` cannot fail, so its exception paths are unreachable.
- 32-bit `int` arithmetic is modelled with unbounded integers. Every intermediate value is at
  most 99900 + 10000, so it never wraps. Integer division `/` is applied only to non-negative
  digits, where C#'s truncating division and Dafny's Euclidean division agree.
- `BarcodeBattlerItem` is a class with get-only properties, set once by its private constructor.
  It is modelled as the immutable datatype `Item`.
- The textual rendering of the enumerations and the stats is not modelled, because it is done by
  printing.
- The unused `using` directives are not modelled, because they carry no behaviour.
