/**
 * `ClienteBase.validar_nombre_apellido` of app/main.py, the field validator of
 * `nombre` and `especilidad`: strip the value, check it is not empty, check a
 * length of 2 to 50 characters and the character class
 * `[a-zA-ZáéíóúÁÉÍÓÚñÑüÜ\s]`, and title-case it. A raised `ValueError` is a
 * `Failure` carrying its message. Characters are Unicode code points, as
 * Python's `len` counts them.
 */
module Validation {
  import opened Wrappers
  import opened Letters

  const EmptyMessage := "El campo no puede estar vacío"
  const TooShortMessage := "Debe tener al menos 2 caracteres"
  const TooLongMessage := "No puede exceder 50 caracteres"
  const CharsetMessage := "Solo se permiten letras y espacios"

  /**
   * Python's `str.isspace`: the characters `str.strip()` removes and that `\s`
   * matches in a `str` pattern.
   */
  predicate IsSpace(c: char)
    ensures IsSpace(c) ==> !IsLetter(c)
    ensures c == ' ' || c == '\t' || c == '\n' || c == '\r' ==> IsSpace(c)
  {
    ('\t' <= c <= '\r') || ('\U{1C}' <= c <= '\U{1F}') || c == ' ' || c == '\U{85}' || c == '\U{A0}'
    || c == '\U{1680}' || ('\U{2000}' <= c <= '\U{200A}') || c == '\U{2028}' || c == '\U{2029}'
    || c == '\U{202F}' || c == '\U{205F}' || c == '\U{3000}'
  }

  /** One character of the class `[a-zA-ZáéíóúÁÉÍÓÚñÑüÜ\s]`. */
  predicate IsAllowed(c: char)
  {
    IsLetter(c) || IsSpace(c)
  }

  predicate AllAllowed(s: string)
    ensures AllAllowed(s) ==> forall k :: 0 <= k < |s| ==> (IsLetter(s[k]) <==> !IsSpace(s[k]))
  {
    forall k :: 0 <= k < |s| ==> IsAllowed(s[k])
  }

  /** How many whitespace characters open `s`. */
  function LeadingSpaces(s: string): (k: nat)
    ensures k <= |s|
    ensures forall t :: 0 <= t < k ==> IsSpace(s[t])
    ensures k < |s| ==> !IsSpace(s[k])
  {
    if s == [] || !IsSpace(s[0]) then 0 else 1 + LeadingSpaces(s[1..])
  }

  /** Where the whitespace that closes `s` begins. */
  function TrailingStart(s: string): (k: nat)
    ensures k <= |s|
    ensures forall t :: k <= t < |s| ==> IsSpace(s[t])
    ensures k > 0 ==> !IsSpace(s[k - 1])
  {
    if s == [] || !IsSpace(s[|s| - 1]) then |s| else TrailingStart(s[..|s| - 1])
  }

  /**
   * `str.strip()`: the slice of `s` left after dropping its leading and its
   * trailing whitespace; empty exactly when `s` is all whitespace.
   */
  function Strip(s: string): (r: string)
    ensures |r| <= |s|
    ensures r == [] <==> forall k :: 0 <= k < |s| ==> IsSpace(s[k])
    ensures r != [] ==> !IsSpace(r[0]) && !IsSpace(r[|r| - 1])
    ensures LeadingSpaces(s) + |r| <= |s|
    ensures r == s[LeadingSpaces(s)..LeadingSpaces(s) + |r|]
    ensures forall k :: LeadingSpaces(s) + |r| <= k < |s| ==> IsSpace(s[k])
  {
    var rest := s[LeadingSpaces(s)..];
    assert rest != [] ==> TrailingStart(rest) > 0;
    rest[..TrailingStart(rest)]
  }

  /** Text that neither starts nor ends with whitespace is its own strip. */
  lemma StripUnchanged(s: string)
    requires s == [] || (!IsSpace(s[0]) && !IsSpace(s[|s| - 1]))
    ensures Strip(s) == s
  {
  }

  /** Position `k` opens a word: it is the first character or follows whitespace. */
  predicate StartsWord(s: string, k: int)
    requires 0 <= k < |s|
  {
    k == 0 || IsSpace(s[k - 1])
  }

  /** Every letter that opens a word is a capital, every other letter is small. */
  predicate IsTitleCased(s: string)
  {
    forall k :: 0 <= k < |s| && IsLetter(s[k]) ==> (StartsWord(s, k) <==> IsUpper(s[k]))
  }

  /**
   * `str.title()` on text of admitted characters: a letter right after a
   * letter is lowered, any other character raised (whitespace has no case).
   */
  function Title(s: string): (r: string)
    requires AllAllowed(s)
    ensures |r| == |s|
  {
    seq(|s|, k requires 0 <= k < |s| => if k > 0 && IsLetter(s[k - 1]) then ToLower(s[k]) else ToUpper(s[k]))
  }

  /**
   * The words of `Title(s)` are those of `s` with the same letters, each
   * capitalised: whitespace stays where it was, every letter keeps its
   * identity up to case, and the result is title-cased.
   */
  lemma TitleShape(s: string)
    requires AllAllowed(s)
    ensures AllAllowed(Title(s)) && IsTitleCased(Title(s))
    ensures forall k :: 0 <= k < |s| && IsSpace(s[k]) ==> Title(s)[k] == s[k]
    ensures forall k :: 0 <= k < |s| && IsLetter(s[k]) ==> IsLetter(Title(s)[k]) && ToLower(Title(s)[k]) == ToLower(s[k])
  {
    var r := Title(s);
    forall k | 0 <= k < |s|
      ensures IsAllowed(r[k])
      ensures IsSpace(s[k]) ==> r[k] == s[k]
      ensures IsLetter(s[k]) ==> IsLetter(r[k]) && ToLower(r[k]) == ToLower(s[k])
      ensures IsLetter(r[k]) ==> (StartsWord(r, k) <==> IsUpper(r[k]))
    {
      if IsLetter(s[k]) {
        CaseRoundTrip(s[k]);
      }
      if k > 0 {
        assert IsSpace(r[k - 1]) <==> IsSpace(s[k - 1]);
      }
    }
  }

  /** Title-casing text that is already title-cased changes nothing, so title-casing twice is title-casing once. */
  lemma TitleIdempotent(s: string)
    requires AllAllowed(s)
    ensures IsTitleCased(s) ==> Title(s) == s
    ensures Title(Title(s)) == Title(s)
  {
    TitleShape(s);
    forall t: string | AllAllowed(t) && IsTitleCased(t)
      ensures Title(t) == t
    {
      forall k | 0 <= k < |t|
        ensures Title(t)[k] == t[k]
      {
        if IsLetter(t[k]) {
          CaseRoundTrip(t[k]);
        }
      }
    }
  }

  /**
   * `validar_nombre_apellido`. The checks run in order, so each error is
   * reported exactly when every earlier check passed and its own failed.
   * (`$` may also match before a final newline, but the stripped text never
   * ends with one.)
   */
  function ValidateName(v: string): (r: Result<string, string>)
    ensures r == Failure(EmptyMessage) <==> Strip(v) == []
    ensures r == Failure(TooShortMessage) <==> 0 < |Strip(v)| < 2
    ensures r == Failure(TooLongMessage) <==> |Strip(v)| > 50
    ensures r == Failure(CharsetMessage) <==> 2 <= |Strip(v)| <= 50 && !AllAllowed(Strip(v))
    ensures r.Success? <==> 2 <= |Strip(v)| <= 50 && AllAllowed(Strip(v))
    ensures r.Success? ==> 2 <= |r.value| <= 50 && |r.value| == |Strip(v)| && AllAllowed(r.value) && IsTitleCased(r.value)
  {
    if v == [] || Strip(v) == [] then Failure(EmptyMessage)
    else
      var s := Strip(v);
      if |s| < 2 then Failure(TooShortMessage)
      else if |s| > 50 then Failure(TooLongMessage)
      else if !AllAllowed(s) then Failure(CharsetMessage)
      else TitleShape(s); Success(Title(s))
  }

  /** The accepted value is the stripped input, letter for letter up to case, with the same whitespace inside. */
  lemma ValidatedKeepsText(v: string)
    ensures ValidateName(v).Success? ==> forall k :: 0 <= k < |Strip(v)| ==>
      (IsSpace(Strip(v)[k]) ==> ValidateName(v).value[k] == Strip(v)[k])
      && (IsLetter(Strip(v)[k]) ==> ToLower(ValidateName(v).value[k]) == ToLower(Strip(v)[k]))
  {
    if ValidateName(v).Success? {
      TitleShape(Strip(v));
    }
  }

  /** Validating an accepted value again accepts it unchanged. */
  lemma ValidateIdempotent(v: string)
    ensures ValidateName(v).Success? ==> ValidateName(ValidateName(v).value) == ValidateName(v)
  {
    if ValidateName(v).Failure? {
      return;
    }
    var s := Strip(v);
    var t := Title(s);
    assert IsLetter(s[0]) && IsLetter(s[|s| - 1]);
    TitleShape(s);
    StripUnchanged(t);
    TitleIdempotent(t);
  }
}
