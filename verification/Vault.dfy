/** The secret box: a version byte, a nonce and a ciphertext, over an abstract authenticated cipher. */
module Vault {

  /** A Go string and a byte slice hold the same bytes. */
  type Bytes = string

  datatype Fault = InvalidCiphertext | NoRandomness | BadKubeconfig | Duplicate

  datatype Outcome<+T> = Done(value: T) | Failed(fault: Fault)

  datatype Cipher = Cipher(
    nonceSize: nat, seal: (Bytes, Bytes, Bytes) -> Bytes, open: (Bytes, Bytes, Bytes) -> Outcome<Bytes>)

  /** Deterministic encryption under a nonce: exactly what was sealed with the same associated data opens. */
  ghost predicate Lawful(box: Cipher) {
    forall nonce: Bytes, cipher: Bytes, aad: Bytes, plain: Bytes :: |nonce| == box.nonceSize ==>
      (box.open(nonce, cipher, aad) == Done(plain) <==> cipher == box.seal(nonce, plain, aad))
  }

  const VERSION: char := 1 as char

  /** `nonce` is what the random source yields. */
  function Seal(box: Cipher, nonce: Outcome<Bytes>, plain: Bytes, aad: Bytes): Outcome<Bytes> {
    if aad == [] then Failed(InvalidCiphertext)
    else if nonce.Failed? then nonce
    else Done([VERSION] + nonce.value + box.seal(nonce.value, plain, aad))
  }

  function Open(box: Cipher, payload: Bytes, aad: Bytes): Outcome<Bytes> {
    if aad == [] || |payload| < 1 + box.nonceSize || payload[0] != VERSION then Failed(InvalidCiphertext)
    else
      var plain := box.open(payload[1..1 + box.nonceSize], payload[1 + box.nonceSize..], aad);
      if plain.Done? then plain else Failed(InvalidCiphertext)
  }

  lemma SealOpens(box: Cipher, nonce: Bytes, plain: Bytes, aad: Bytes)
    requires Lawful(box) && |nonce| == box.nonceSize && aad != []
    ensures var payload := Seal(box, Done(nonce), plain, aad);
            payload.Done? && Open(box, payload.value, aad) == Done(plain) && payload.value[0] == 1 as char
  {
    var payload := [VERSION] + nonce + box.seal(nonce, plain, aad);
    assert payload[1..1 + box.nonceSize] == nonce;
    assert payload[1 + box.nonceSize..] == box.seal(nonce, plain, aad);
  }

  /** Open undoes Seal and nothing else: a payload opens exactly when some nonce sealed it. */
  lemma OpenMeans(box: Cipher, payload: Bytes, aad: Bytes, plain: Bytes)
    requires Lawful(box)
    ensures Open(box, payload, aad) == Done(plain) <==>
            exists nonce: Bytes :: |nonce| == box.nonceSize && Seal(box, Done(nonce), plain, aad) == Done(payload)
  {
    if Open(box, payload, aad) == Done(plain) {
      var nonce := payload[1..1 + box.nonceSize];
      assert payload == [VERSION] + nonce + payload[1 + box.nonceSize..];
      assert Seal(box, Done(nonce), plain, aad) == Done(payload);
    }
    forall nonce: Bytes | |nonce| == box.nonceSize && Seal(box, Done(nonce), plain, aad) == Done(payload)
      ensures Open(box, payload, aad) == Done(plain)
    {
      SealOpens(box, nonce, plain, aad);
    }
  }

  /** Every failure to open is the same error. */
  lemma OpenFailsAlike(box: Cipher, payload: Bytes, aad: Bytes)
    requires Lawful(box)
    ensures Open(box, payload, aad) == Failed(InvalidCiphertext) <==>
            forall nonce: Bytes, plain: Bytes :: |nonce| == box.nonceSize ==>
              Seal(box, Done(nonce), plain, aad) != Done(payload)
  {
    var result := Open(box, payload, aad);
    if result.Done? {
      OpenMeans(box, payload, aad, result.value);
    } else {
      forall nonce: Bytes, plain: Bytes | |nonce| == box.nonceSize
        ensures Seal(box, Done(nonce), plain, aad) != Done(payload)
      {
        OpenMeans(box, payload, aad, plain);
      }
    }
  }
}
