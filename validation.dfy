/** The checks the conversation handlers apply to the text a user sends
    before they accept it, and the normalisation of a typed-in PIN. */
module Validation {
  import opened Text
  import opened Pins

  /** The shortest phone number the send-message workflow accepts. */
  const MinPhoneLength := 10

  /** A recipient number: digits only and at least ten of them. */
  predicate ValidPhoneNumber(number: string) {
    IsDigits(number) && |number| >= MinPhoneLength
  }

  /** The YouTube workflow accepts any text that mentions one of the two hosts. */
  predicate IsYouTubeUrl(url: string) {
    Contains(url, "youtube.com/") || Contains(url, "youtu.be/")
  }

  /** The URL workflow accepts any text with an HTTP or HTTPS scheme prefix. */
  predicate IsHttpUrl(url: string) {
    StartsWith(url, "http://") || StartsWith(url, "https://")
  }

  /** An AI query is accepted when it is not empty. */
  predicate ValidQuery(query: string) {
    query != ""
  }

  /** A typed PIN with surrounding whitespace removed and letters upper-cased. */
  function NormalizePin(text: string): (pin: string)
    ensures |pin| <= |text|
    ensures pin == [] || (!IsSpace(pin[0]) && !IsSpace(pin[|pin| - 1]))
    ensures forall i | 0 <= i < |pin| :: !IsLower(pin[i])
  {
    var stripped := Strip(text);
    var pin := Upper(stripped);
    pin
  }

  /** Normalising a PIN twice gives the same PIN as normalising it once. */
  lemma NormalizePinIdempotent(text: string)
    ensures NormalizePin(NormalizePin(text)) == NormalizePin(text)
  {
    var pin := NormalizePin(text);
    StripOfTrimmed(pin);
    UpperOfUpper(pin);
  }

  /** The normalised PIN is the middle `text[i..j]` between the leading and
      trailing whitespace, each character upper-cased. */
  lemma NormalizePinUpperCasesStripped(text: string) returns (i: nat, j: nat)
    ensures i <= j <= |text| && |NormalizePin(text)| == j - i
    ensures forall k | 0 <= k < j - i :: NormalizePin(text)[k] == UpperChar(text[i + k])
    ensures forall k | 0 <= k < i :: IsSpace(text[k])
    ensures forall k | j <= k < |text| :: IsSpace(text[k])
  {
    i, j := StripRemovesOnlyEndSpace(text);
    var stripped := Strip(text);
    forall k | 0 <= k < j - i ensures NormalizePin(text)[k] == UpperChar(text[i + k]) {
      assert stripped[k] == text[i + k];
    }
  }

  /** Rejected phone numbers: the empty text, any non-digit, fewer than ten digits. */
  lemma PhoneNumberRejects(number: string)
    ensures number == "" ==> !ValidPhoneNumber(number)
    ensures (exists i | 0 <= i < |number| :: !IsDigit(number[i])) ==> !ValidPhoneNumber(number)
    ensures |number| < MinPhoneLength ==> !ValidPhoneNumber(number)
  {
  }

  /** The YouTube check holds exactly when one of the two host markers occurs
      at some position of the text. */
  lemma {:induction false} YouTubeUrlIffOccurs(url: string)
    ensures IsYouTubeUrl(url) <==>
      (exists i :: OccursAt(url, "youtube.com/", i)) || (exists i :: OccursAt(url, "youtu.be/", i))
  {
    ContainsIffOccurs(url, "youtube.com/");
    ContainsIffOccurs(url, "youtu.be/");
  }

  /** The YouTube check asks for no scheme: a bare short link passes it
      although it would fail the URL workflow's check. */
  lemma YouTubeCheckNeedsNoScheme()
    ensures IsYouTubeUrl("youtu.be/dQw4w9WgXcQ") && !IsHttpUrl("youtu.be/dQw4w9WgXcQ")
  {
    var y := "youtu.be/dQw4w9WgXcQ";
    assert StartsWith(y, "youtu.be/");
    assert y[..7][0] == 'y' && y[..8][0] == 'y';
  }

  /** `typed` is `pin` with any of its letters written in lower case. */
  predicate SameUpToCase(typed: string, pin: string) {
    && |typed| == |pin|
    && forall i | 0 <= i < |pin| ::
      typed[i] == pin[i] || ('A' <= pin[i] <= 'Z' && typed[i] as int == pin[i] as int + 32)
  }

  /** A generated PIN typed back in any mix of cases, alone or between a
      blank and a newline, normalises to the PIN itself, so its lookup quotes
      it exactly as generated. */
  lemma AnyCasePinIsFound(pin: string, typed: string)
    requires pin != [] && IsPin(pin, |pin|) && SameUpToCase(typed, pin)
    ensures NormalizePin(typed) == pin
    ensures NormalizePin(" " + typed + "\n") == pin
  {
    assert !IsSpace(typed[0]) && !IsSpace(typed[|typed| - 1]) by {
      assert IsPinChar(pin[0]) && IsPinChar(pin[|pin| - 1]);
    }
    StripOfTrimmed(typed);
    StripPadded(typed);
    UpperOfSameUpToCase(pin, typed);
  }

  /** Upper-casing a PIN typed in any mix of cases gives back the PIN. */
  lemma UpperOfSameUpToCase(pin: string, typed: string)
    requires IsPin(pin, |pin|) && SameUpToCase(typed, pin)
    ensures Upper(typed) == pin
  {
    forall i | 0 <= i < |pin| ensures Upper(typed)[i] == pin[i] {
      assert IsPinChar(pin[i]);
    }
  }
}
