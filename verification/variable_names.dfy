/**
 * JsVariableFactory: short variable names a, b, ..., z, aa, ab, ... drawn
 * from a letter set, handed out in order inside ScriptCompressible nodes.
 * The names are the numerals of bijective base-n numeration (n the size of
 * the letter set), shifted by one: the decoder below is their inverse.
 */
module VariableNames {
  import opened Wrappers
  import opened Values

  /** The default LetterSet. */
  const DefaultLetters: string := "abcdefghijklmnopqrstuvwxyz"

  /** No letter occurs twice. */
  predicate Distinct(letters: string)
  {
    forall j, k :: 0 <= j < k < |letters| ==> letters[j] != letters[k]
  }

  /**
   * RecursiveLetterSetName(i): a single letter below the size n of the
   * letter set; otherwise the name of i / n - 1 followed by the letter at
   * i - (i / n) * n.  An empty letter set divides by zero in the source.
   */
  function LetterName(letters: string, i: nat): (r: string)
    requires |letters| > 0
    ensures |r| >= 1
    ensures forall c :: c in r ==> c in letters
    decreases i
  {
    var n := |letters|;
    if i >= n then
      var bi := i / n;
      DivisionSteps(i, n);
      LetterName(letters, bi - 1) + [letters[i - bi * n]]
    else [letters[i]]
  }

  /** The quotient and remainder RecursiveLetterSetName works with, for i >= n. */
  lemma DivisionSteps(i: nat, n: nat)
    requires 0 < n <= i
    ensures 1 <= i / n && i / n - 1 < i
    ensures 0 <= i - (i / n) * n < n
  {
    var q := i / n;
    assert i == q * n + i % n;
    MulMono(q, 0, n);
    MulMono(1, n, q);
  }

  /** Multiplying by a natural number keeps the order. */
  lemma {:induction false} MulMono(a: int, b: int, n: nat)
    ensures a <= b ==> a * n <= b * n
    decreases n
  {
    if n > 0 {
      MulMono(a, b, n - 1);
      assert a * n == a * (n - 1) + a;
      assert b * n == b * (n - 1) + b;
    }
  }

  /** The position of a letter in the letter set. */
  function Digit(letters: string, c: char): (r: Option<nat>)
    ensures r.Some? ==> r.value < |letters| && letters[r.value] == c
    ensures r.None? <==> c !in letters
  {
    if letters == [] then Option.None
    else if letters[0] == c then Some(0)
    else match Digit(letters[1..], c)
         case Some(k) => Some(k + 1)
         case None => Option.None
  }

  /** The value of a name read as a bijective base-n numeral (letter k stands for k + 1); None for a foreign character. */
  function NameValue(letters: string, s: string): Option<nat>
    decreases |s|
  {
    if s == [] then Some(0)
    else
      match NameValue(letters, s[..|s| - 1])
      case None => Option.None
      case Some(v) =>
        match Digit(letters, s[|s| - 1])
        case None => Option.None
        case Some(d) => Some(v * |letters| + d + 1)
  }

  /** The index a name was generated from: its numeral value less one. */
  function NameIndex(letters: string, s: string): (r: Option<nat>)
  {
    match NameValue(letters, s)
    case Some(v) => if v >= 1 then Some(v - 1) else Option.None
    case None => Option.None
  }

  lemma DigitOfDistinct(letters: string, k: nat)
    requires Distinct(letters) && k < |letters|
    ensures Digit(letters, letters[k]) == Some(k)
  {
    assert letters[k] in letters;
  }

  /** Reading back the name of i gives i: the names decode. */
  lemma {:induction false} NameRoundTrip(letters: string, i: nat)
    requires |letters| > 0 && Distinct(letters)
    ensures NameIndex(letters, LetterName(letters, i)) == Some(i)
    ensures NameValue(letters, LetterName(letters, i)) == Some(i + 1)
    decreases i
  {
    var n := |letters|;
    var s := LetterName(letters, i);
    if i >= n {
      var bi := i / n;
      var d := i - bi * n;
      DivisionSteps(i, n);
      NameRoundTrip(letters, bi - 1);
      assert s == LetterName(letters, bi - 1) + [letters[d]];
      DigitOfDistinct(letters, d);
      assert s[..|s| - 1] == LetterName(letters, bi - 1);
      assert s[|s| - 1] == letters[d];
      assert NameValue(letters, s) == Some(bi * n + d + 1);
    } else {
      DigitOfDistinct(letters, i);
      assert s[..|s| - 1] == [];
    }
  }

  /** Different indexes give different names, so every variable gets a name of its own. */
  lemma NamesAreInjective(letters: string, i: nat, j: nat)
    requires |letters| > 0 && Distinct(letters) && i != j
    ensures LetterName(letters, i) != LetterName(letters, j)
  {
    NameRoundTrip(letters, i);
    NameRoundTrip(letters, j);
  }

  lemma DivMonotone(i: nat, j: nat, n: nat)
    requires 0 < n && i <= j
    ensures i / n <= j / n
  {
    var qi, qj := i / n, j / n;
    assert i == qi * n + i % n;
    assert j == qj * n + j % n;
    assert (qj + 1) * n == qj * n + n;
    LessTimes(qi, qj + 1, n);
  }

  lemma LessTimes(a: int, b: int, n: nat)
    requires a * n < b * n
    ensures a < b
  {
    MulMono(b, a, n);
  }

  /** A later index never has a shorter name. */
  lemma {:induction false} NameLengthGrows(letters: string, i: nat, j: nat)
    requires |letters| > 0 && i <= j
    ensures |LetterName(letters, i)| <= |LetterName(letters, j)|
    decreases j
  {
    var n := |letters|;
    if i >= n {
      DivisionSteps(i, n);
      DivisionSteps(j, n);
      DivMonotone(i, j, n);
      NameLengthGrows(letters, i / n - 1, j / n - 1);
      assert |LetterName(letters, i)| == |LetterName(letters, i / n - 1)| + 1;
      assert |LetterName(letters, j)| == |LetterName(letters, j / n - 1)| + 1;
    }
  }

  /** With the default letters, 25 is "z", 26 is "aa", 701 is "zz" and 702 is "aaa". */
  lemma DefaultNames()
    ensures LetterName(DefaultLetters, 0) == "a"
    ensures LetterName(DefaultLetters, 25) == "z"
    ensures LetterName(DefaultLetters, 26) == "aa"
    ensures LetterName(DefaultLetters, 701) == "zz"
    ensures LetterName(DefaultLetters, 702) == "aaa"
  {
    assert LetterName(DefaultLetters, 26) == LetterName(DefaultLetters, 0) + "a";
    assert LetterName(DefaultLetters, 701) == LetterName(DefaultLetters, 25) + "z";
    assert LetterName(DefaultLetters, 702) == LetterName(DefaultLetters, 26) + "a";
  }

  /**
   * The factory: the index of the next name and the letter set.  Create
   * hands out the compressible (name, short name of the index) and moves
   * the index on.
   */
  class JsVariableFactory {
    var index: nat
    var letterSet: string

    constructor ()
      ensures index == 0 && letterSet == DefaultLetters
    {
      index := 0;
      letterSet := DefaultLetters;
    }

    /** The LetterSet setter. */
    method SetLetterSet(letters: string)
      modifies this
      ensures letterSet == letters && index == old(index)
    {
      letterSet := letters;
    }

    /** Create(name): the full name when not compressing, the next short name when compressing. */
    method Create(name: Value) returns (r: Item)
      requires |letterSet| > 0
      modifies this
      ensures letterSet == old(letterSet) && index == old(index) + 1
      ensures r == CompressibleNode(name, Str(LetterName(letterSet, old(index))))
    {
      var compressedName := LetterName(letterSet, index);
      r := CompressibleNode(name, Str(compressedName));
      index := index + 1;
    }
  }

  /** Two variables created one after the other get different short names. */
  method CreateTwo(f: JsVariableFactory, a: Value, b: Value) returns (x: Item, y: Item)
    requires |f.letterSet| > 0 && Distinct(f.letterSet)
    modifies f
    ensures x.kind.Compressible? && y.kind.Compressible? && x.kind.compressed != y.kind.compressed
    ensures f.index == old(f.index) + 2
  {
    x := f.Create(a);
    y := f.Create(b);
    NamesAreInjective(f.letterSet, f.index - 2, f.index - 1);
  }
}
