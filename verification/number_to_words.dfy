/** Amount in words on the Indian scale: hundred, thousand, lakh (10^5) and
    crore (10^7), with "and" after "hundred" and the first letter
    capitalised. */
module NumberToWords {

  /** Table `a`: the words for 0 to 19 (0 is the empty word). */
  const Ones: seq<string> := [
    "", "one", "two", "three", "four", "five", "six", "seven", "eight", "nine", "ten",
    "eleven", "twelve", "thirteen", "fourteen", "fifteen", "sixteen", "seventeen",
    "eighteen", "nineteen"]

  /** Table `b`: the words for the tens, indexed by the tens digit. */
  const Tens: seq<string> := [
    "", "", "twenty", "thirty", "forty", "fifty", "sixty", "seventy", "eighty", "ninety"]


  predicate IsLower(c: char) { 'a' <= c <= 'z' }
  predicate IsUpper(c: char) { 'A' <= c <= 'Z' }

  /** Non-empty and starting with a lower-case letter. */
  predicate StartsWithLetter(s: string) {
    |s| > 0 && IsLower(s[0])
  }

  /** The inner `convert`: the words for `n`, empty for 0. */
  function Convert(n: nat): (r: string)
    ensures n >= 1 ==> StartsWithLetter(r)
    decreases n
  {
    TablesStartWithLetters();
    if n < 20 then Ones[n]
    else if n < 100 then Tens[n / 10] + (if n % 10 != 0 then " " + Ones[n % 10] else "")
    else if n < 1000 then Ones[n / 100] + " hundred" + (if n % 100 != 0 then " and " + Convert(n % 100) else "")
    else if n < 100000 then Convert(n / 1000) + " thousand" + (if n % 1000 != 0 then " " + Convert(n % 1000) else "")
    else if n < 10000000 then Convert(n / 100000) + " lakh" + (if n % 100000 != 0 then " " + Convert(n % 100000) else "")
    else Convert(n / 10000000) + " crore" + (if n % 10000000 != 0 then " " + Convert(n % 10000000) else "")
  }

  /** `toUpperCase` on one character; only ASCII letters occur here. */
  function UpperCase(c: char): (r: char)
    ensures IsLower(c) ==> IsUpper(r) && r as int == c as int - 32
    ensures !IsLower(c) ==> r == c
  {
    if IsLower(c) then (c as int - 32) as char else c
  }

  /** `words.charAt(0).toUpperCase() + words.slice(1)`: the first character
      replaced by its upper-case form. */
  function Capitalize(w: string): (r: string)
    ensures |r| == |w|
    ensures |w| > 0 ==> r[0] == UpperCase(w[0])
    ensures forall i :: 1 <= i < |w| ==> r[i] == w[i]
  {
    if |w| == 0 then w else w[0 := UpperCase(w[0])]
  }

  /** `numberToWords`: "zero" for 0, otherwise the capitalised words of the
      integer part. A negative input is outside the domain: the table lookup
      would be undefined. */
  function AmountInWords(num: real): (r: string)
    requires num >= 0.0
    ensures num == 0.0 ==> r == "zero"
    ensures num >= 1.0 ==>
      var words := Convert(num.Floor);
      && |r| == |words| > 0
      && IsLower(words[0]) && IsUpper(r[0]) && r[0] == UpperCase(words[0])
      && r[1..] == words[1..]
  {
    if num == 0.0 then "zero" else Capitalize(Convert(num.Floor))
  }

  lemma TablesStartWithLetters()
    ensures forall i :: 1 <= i < 20 ==> StartsWithLetter(Ones[i])
    ensures forall i :: 2 <= i < 10 ==> StartsWithLetter(Tens[i])
  {
  }

  /** The words are empty exactly for 0. */
  lemma ConvertEmptyIffZero(n: nat)
    ensures Convert(n) == "" <==> n == 0
  {
  }

  /** Each tier's trailing clause is omitted exactly when its remainder is zero. */
  lemma TrailingClauseOmitted(n: nat)
    ensures 20 <= n < 100 ==> (Convert(n) == Tens[n / 10] <==> n % 10 == 0)
    ensures 100 <= n < 1000 ==> (Convert(n) == Ones[n / 100] + " hundred" <==> n % 100 == 0)
    ensures 1000 <= n < 100000 ==> (Convert(n) == Convert(n / 1000) + " thousand" <==> n % 1000 == 0)
    ensures 100000 <= n < 10000000 ==> (Convert(n) == Convert(n / 100000) + " lakh" <==> n % 100000 == 0)
    ensures 10000000 <= n ==> (Convert(n) == Convert(n / 10000000) + " crore" <==> n % 10000000 == 0)
  {
    if 20 <= n < 100 && n % 10 != 0 {
      assert |Convert(n)| > |Tens[n / 10]|;
    } else if 100 <= n < 1000 && n % 100 != 0 {
      assert |Convert(n)| > |Ones[n / 100] + " hundred"|;
    } else if 1000 <= n < 100000 && n % 1000 != 0 {
      assert |Convert(n)| > |Convert(n / 1000) + " thousand"|;
    } else if 100000 <= n < 10000000 && n % 100000 != 0 {
      assert |Convert(n)| > |Convert(n / 100000) + " lakh"|;
    } else if 10000000 <= n && n % 10000000 != 0 {
      assert |Convert(n)| > |Convert(n / 10000000) + " crore"|;
    }
  }

  /** Only the integer part is spoken: a fraction is dropped, and an amount
      strictly between 0 and 1 has no words at all. */
  lemma IntegerPartOnly(num: real)
    requires num >= 0.0
    ensures num >= 1.0 ==> AmountInWords(num) == AmountInWords(num.Floor as real)
    ensures 0.0 < num < 1.0 ==> AmountInWords(num) == ""
  {
  }

  lemma ZeroInWords()
    ensures AmountInWords(0.0) == "zero"
  {
  }

  lemma WordsOfRoundAmounts()
    ensures Convert(100) == "one hundred"
    ensures Convert(100000) == "one lakh"
    ensures Convert(10000000) == "one crore"
  {
  }

  /** A round hundred, lakh or crore drops its remainder clause. */
  lemma RoundAmountsInWords()
    ensures AmountInWords(100.0) == "One hundred"
    ensures AmountInWords(100000.0) == "One lakh"
    ensures AmountInWords(10000000.0) == "One crore"
  {
    WordsOfRoundAmounts();
  }

  lemma WordsOf534()
    ensures Convert(534) == "five" + " hundred" + " and " + "thirty four"
  {
    assert Convert(34) == "thirty four";
  }

  lemma SpellingOf534()
    ensures "five" + " hundred" + " and " + "thirty four" == "five hundred and thirty four"
  {
  }

  lemma WordsOf1534()
    ensures Convert(1534) == "one" + " thousand" + " " + "five hundred and thirty four"
  {
    assert Convert(1534) == Convert(1) + " thousand" + " " + Convert(534);
    WordsOf534();
    SpellingOf534();
  }

  lemma SpellingOf1534()
    ensures "one" + " thousand" + " " + "five hundred and thirty four" == "one thousand five hundred and thirty four"
  {
  }

  lemma CapitalOf1534()
    ensures Capitalize("one thousand five hundred and thirty four") == "One thousand five hundred and thirty four"
  {
    var w := "one thousand five hundred and thirty four";
    assert UpperCase('o') == 'O';
    assert Capitalize(w) == w[0 := 'O'];
  }

  /** The thousand tier joins with a space, the hundred tier with " and ". */
  lemma ThousandsInWords()
    ensures AmountInWords(1534.0) == "One thousand five hundred and thirty four"
  {
    WordsOf1534();
    SpellingOf1534();
    CapitalOf1534();
  }

  lemma WordsOfCroreCrore()
    ensures Convert(100000000000000) == "one crore crore"
  {
    assert Convert(10000000) == "one crore";
  }

  /** The crore tier recurses on its quotient, so crores of crores are spoken
      as such. */
  lemma CroreOfCroresInWords()
    ensures AmountInWords(100000000000000.0) == "One crore crore"
  {
    WordsOfCroreCrore();
    assert UpperCase('o') == 'O';
  }
}
