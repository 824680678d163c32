/**
 * The letters the name validator of app/main.py admits, `a-z`, `A-Z` and
 * á é í ó ú ñ ü with their capitals, and Python's case mapping on them. In
 * Latin-1 every one of these capitals sits 32 code points below its small letter.
 */
module Letters {

  predicate IsLower(c: char)
  {
    'a' <= c <= 'z' || c == 'á' || c == 'é' || c == 'í' || c == 'ó' || c == 'ú' || c == 'ñ' || c == 'ü'
  }

  predicate IsUpper(c: char)
  {
    'A' <= c <= 'Z' || c == 'Á' || c == 'É' || c == 'Í' || c == 'Ó' || c == 'Ú' || c == 'Ñ' || c == 'Ü'
  }

  predicate IsLetter(c: char)
  {
    IsLower(c) || IsUpper(c)
  }

  /** `str.upper` on one character of this alphabet; anything else is left alone. */
  function ToUpper(c: char): (r: char)
    ensures IsLetter(c) ==> IsUpper(r)
    ensures IsUpper(c) || !IsLetter(c) ==> r == c
  {
    if IsLower(c) then (c as int - 32) as char else c
  }

  /** `str.lower` on one character of this alphabet; anything else is left alone. */
  function ToLower(c: char): (r: char)
    ensures IsLetter(c) ==> IsLower(r)
    ensures IsLower(c) || !IsLetter(c) ==> r == c
  {
    if IsUpper(c) then (c as int + 32) as char else c
  }

  const SmallLetters := "abcdefghijklmnopqrstuvwxyzáéíóúñü"
  const CapitalLetters := "ABCDEFGHIJKLMNOPQRSTUVWXYZÁÉÍÓÚÑÜ"

  /** Each small letter is raised to its own capital, and each capital lowered to its own small letter. */
  lemma CasePairs(i: int)
    requires 0 <= i < |SmallLetters|
    ensures |CapitalLetters| == |SmallLetters|
    ensures IsLower(SmallLetters[i]) && IsUpper(CapitalLetters[i])
    ensures ToUpper(SmallLetters[i]) == CapitalLetters[i]
    ensures ToLower(CapitalLetters[i]) == SmallLetters[i]
  {
  }

  /** The two alphabets list every letter there is: a letter is one of them. */
  lemma LettersListed(c: char)
    ensures IsLower(c) <==> c in SmallLetters
    ensures IsUpper(c) <==> c in CapitalLetters
  {
  }

  /** Upper and lower case are inverse to each other on the letters, and changing case twice is changing it once. */
  lemma CaseRoundTrip(c: char)
    requires IsLetter(c)
    ensures IsLower(c) ==> ToLower(ToUpper(c)) == c
    ensures IsUpper(c) ==> ToUpper(ToLower(c)) == c
    ensures ToUpper(ToLower(c)) == ToUpper(c) && ToLower(ToUpper(c)) == ToLower(c)
  {
  }
}
