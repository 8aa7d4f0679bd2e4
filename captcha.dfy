/**
 * The text captcha: generation of a six-character challenge from random
 * draws, and the case-insensitive check of what the user types. Drawing the
 * challenge on a canvas is not modelled.
 */
module Captcha {
  import opened Text

  const Alphabet := "ABCDEFGHIJKLMNOPQRSTUVWXYZabcdefghijklmnopqrstuvwxyz0123456789"
  const CaptchaLength := 6

  /** Each draw is `Math.floor(Math.random() * chars.length)`, an index into the alphabet. */
  predicate ValidDraws(draws: seq<nat>) {
    |draws| == CaptchaLength && forall i :: 0 <= i < |draws| ==> draws[i] < |Alphabet|
  }

  /** The loop of `generateCaptcha`: one alphabet character per draw. */
  method BuildCaptcha(draws: seq<nat>) returns (result: string)
    requires ValidDraws(draws)
    ensures |result| == CaptchaLength
    ensures forall i :: 0 <= i < |result| ==> result[i] == Alphabet[draws[i]]
    ensures forall i :: 0 <= i < |result| ==> result[i] in Alphabet
  {
    result := "";
    for i := 0 to CaptchaLength
      invariant |result| == i
      invariant forall k :: 0 <= k < i ==> result[k] == Alphabet[draws[k]]
    {
      result := result + [Alphabet[draws[i]]];
    }
  }

  /** Typing the challenge in lower case, the way most users read it, verifies. */
  lemma LowerCasedChallengeVerifies(captchaText: string)
    ensures IsVerified(Lower(captchaText), captchaText)
  {
    LowerIdempotent(captchaText);
  }

  /** `handleInputChange`'s test: equal after lower-casing both sides. */
  predicate IsVerified(input: string, captchaText: string) {
    Lower(input) == Lower(captchaText)
  }

  /** The input is accepted exactly when it has the challenge's length and agrees with it letter by letter up to case. */
  lemma IsVerifiedIff(input: string, captchaText: string)
    ensures IsVerified(input, captchaText) <==>
      |input| == |captchaText| &&
      forall i :: 0 <= i < |input| ==> LowerChar(input[i]) == LowerChar(captchaText[i])
  {
    LowerEqualIff(input, captchaText);
  }

  /** The other case of an ASCII letter; anything else is unchanged. */
  function SwapCase(c: char): (r: char)
    ensures LowerChar(r) == LowerChar(c)
    ensures IsAsciiUpper(c) ==> IsAsciiLower(r)
    ensures IsAsciiLower(c) ==> IsAsciiUpper(r)
    ensures !IsAsciiUpper(c) && !IsAsciiLower(c) ==> r == c
  {
    if IsAsciiUpper(c) then LowerChar(c) else UpperChar(c)
  }

  /** Changing the case of any one letter of the input does not change the verdict. */
  lemma SwapCaseKeepsVerdict(input: string, i: nat, captchaText: string)
    requires i < |input|
    ensures IsVerified(input[i := SwapCase(input[i])], captchaText) == IsVerified(input, captchaText)
  {
    var swapped := input[i := SwapCase(input[i])];
    assert Lower(swapped) == Lower(input) by {
      LowerEqualIff(swapped, input);
    }
  }

  /** The state shared between the widget and its parent form. */
  class CaptchaWidget {
    var captchaText: string
    var userInput: string
    /** The last value reported through `onVerify`, which the sign-up form keeps as `isCaptchaVerified`. */
    var verified: bool

    constructor()
      ensures captchaText == "" && userInput == "" && !verified
    {
      captchaText := "";
      userInput := "";
      verified := false;
    }

    /** `generateCaptcha`: a fresh challenge, an empty input and "not verified". */
    method Generate(draws: seq<nat>) returns (text: string)
      requires ValidDraws(draws)
      modifies this
      ensures |text| == CaptchaLength && forall i :: 0 <= i < |text| ==> text[i] == Alphabet[draws[i]]
      ensures captchaText == text && userInput == "" && !verified
    {
      text := BuildCaptcha(draws);
      captchaText := text;
      userInput := "";
      verified := false;
    }

    /** `handleInputChange`: store the input and report whether it matches the challenge. */
    method HandleInputChange(value: string)
      modifies this
      ensures userInput == value && captchaText == old(captchaText)
      ensures verified == IsVerified(value, old(captchaText))
    {
      userInput := value;
      verified := Lower(value) == Lower(captchaText);
    }
  }
}
