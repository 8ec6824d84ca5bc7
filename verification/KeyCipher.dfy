/** Keys as the settings files keep them (electron/decisionModel.ts): sealed by the operating system, or
    not kept at all. */
module KeyCipher {
  import opened Basics

  /** The operating system's encryption, base64 included. */
  datatype Cipher = Cipher(encrypt: string -> string, decrypt: string -> Option<string>)

  /** Decryption undoes encryption. */
  ghost predicate Faithful(c: Cipher) {
    forall key :: key != "" ==> c.encrypt(key) != "" && c.decrypt(c.encrypt(key)) == Some(key)
  }

  lemma AFaithfulCipherExists()
    ensures exists c: Cipher :: Faithful(c)
  {
    var c := Cipher((key: string) => key, (sealed: string) => Some(sealed));
    assert Faithful(c);
  }

  /** The key in a setting, if there is one and the cipher answers. */
  function Opened(c: Cipher, sealed: Option<string>, up: bool): Option<string> {
    if sealed.None? || !up then None
    else
      var plain := c.decrypt(sealed.value);
      if plain == Some("") then None else plain
  }

  /** What of a key goes into the setting. */
  function Sealed(c: Cipher, key: Option<string>, canStore: bool): (sealed: Option<string>)
    ensures sealed != Some("")
  {
    if key.None? || !canStore then None
    else
      var text := c.encrypt(key.value);
      if text == "" then None else Some(text)
  }

  lemma SealedOpens(c: Cipher, key: Option<string>, canStore: bool, up: bool)
    requires Faithful(c) && key != Some("")
    ensures Opened(c, Sealed(c, key, canStore), up) == if canStore && up then key else None
  {
    if key.Some? {
      assert key.value != "";
    }
  }
}
