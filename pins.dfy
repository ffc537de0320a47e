/** Retrieval PINs: random codes over upper-case letters and digits, and the
    best-effort protocol that asks the file store whether a code is free. */
module Pins {

  /** `string.ascii_uppercase` */
  const Uppercase: string := seq(26, i requires 0 <= i < 26 => ('A' as int + i) as char)

  /** `string.digits` */
  const Digits: string := seq(10, i requires 0 <= i < 10 => ('0' as int + i) as char)

  /** The characters a PIN is drawn from. */
  const Alphabet: string := Uppercase + Digits

  const DefaultPinLength := 6

  /** How many candidates are checked against the store before the fallback. */
  const MaxAttempts := 10

  predicate IsPinChar(c: char) {
    'A' <= c <= 'Z' || '0' <= c <= '9'
  }

  /** A PIN of the given length over the PIN characters. */
  predicate IsPin(pin: string, length: nat) {
    |pin| == length && forall i | 0 <= i < |pin| :: IsPinChar(pin[i])
  }

  /** The alphabet holds 36 distinct characters, exactly the PIN characters,
      so a uniform draw from it is a uniform draw of a PIN character. */
  lemma {:induction false} AlphabetIsPinChars()
    ensures |Alphabet| == 36
    ensures forall c :: c in Alphabet <==> IsPinChar(c)
    ensures forall i, j | 0 <= i < j < |Alphabet| :: Alphabet[i] != Alphabet[j]
  {
    forall c | IsPinChar(c) ensures c in Alphabet {
      if 'A' <= c <= 'Z' {
        assert Alphabet[c as int - 'A' as int] == c;
      } else {
        assert Alphabet[26 + c as int - '0' as int] == c;
      }
    }
  }

  /** `generate_pin(length)`: each character is an independent choice from the
      alphabet; the choice is left to the verifier, standing for `random.choice`. */
  method GeneratePin(length: nat) returns (pin: string)
    ensures IsPin(pin, length)
  {
    AlphabetIsPinChars();
    pin := "";
    for n := 0 to length
      invariant |pin| == n
      invariant forall i | 0 <= i < n :: IsPinChar(pin[i])
    {
      var k :| 0 <= k < |Alphabet|;
      pin := pin + [Alphabet[k]];
    }
  }

  /** What the store's query for one PIN produces. */
  datatype QueryResult =
    | Unique      // the query returned no document
    | Taken       // the query returned a document with this PIN
    | QueryError  // the query raised

  /** The files collection: absent when the store was never configured,
      otherwise the outcome of querying each PIN. */
  datatype FileStore =
    | NoStore
    | Firestore(query: string -> QueryResult)

  /** `is_pin_unique`: true only on a successful query that found nothing;
      a missing store or a failing query counts as "taken". */
  function IsPinUnique(store: FileStore, pin: string): (unique: bool)
    ensures store.NoStore? ==> !unique
    ensures store.Firestore? ==> (unique <==> store.query(pin) == Unique)
  {
    match store
    case NoStore => false
    case Firestore(query) =>
      match query(pin)
      case Unique => true
      case Taken => false
      case QueryError => false
  }

  /** `generate_unique_pin(length)`. The ghost `checked` lists the candidates
      whose uniqueness was asked, in order. At most ten are asked; a candidate
      the store confirmed is returned at once; when none is confirmed a fresh,
      unchecked candidate is returned. The method always returns a PIN. */
  method GenerateUniquePin(length: nat, store: FileStore) returns (pin: string, ghost checked: seq<string>)
    ensures IsPin(pin, length)
    ensures 1 <= |checked| <= MaxAttempts
    ensures forall k | 0 <= k < |checked| :: IsPin(checked[k], length)
    ensures forall k | 0 <= k < |checked| - 1 :: !IsPinUnique(store, checked[k])
    ensures IsPinUnique(store, checked[|checked| - 1]) ==> pin == checked[|checked| - 1]
    ensures !IsPinUnique(store, checked[|checked| - 1]) ==> |checked| == MaxAttempts
    ensures store.NoStore? ==> |checked| == MaxAttempts
  {
    checked := [];
    for attempt := 0 to MaxAttempts
      invariant |checked| == attempt
      invariant forall k | 0 <= k < attempt :: IsPin(checked[k], length) && !IsPinUnique(store, checked[k])
    {
      var candidate := GeneratePin(length);
      checked := checked + [candidate];
      if IsPinUnique(store, candidate) {
        pin := candidate;
        return;
      }
    }
    pin := GeneratePin(length);
  }
}
