/** Field-level encryption of dictionaries. The cipher itself (Fernet over
    base64) is a parameter: a pair of functions on text, decryption failing
    on text it cannot read. */
module Encryption {
  import opened Json

  /** The two exceptions the key checks raise. */
  datatype Failure = ValueError(message: string) | EncryptionError(message: string)

  datatype Result<T> = Ok(value: T) | Err(failure: Failure)

  /** `Encryptor.encrypt` and `Encryptor.decrypt` under one key; None is a
      decryption that raises. */
  datatype Cipher = Cipher(encrypt: string -> string, decrypt: string -> Option<string>)

  /** Decryption undoes encryption, as Fernet promises under one key. */
  ghost predicate Inverts(c: Cipher)
  {
    forall s :: c.decrypt(c.encrypt(s)) == Some(s)
  }

  /** An encryption manager, known by its key. */
  datatype Encryptor = Encryptor(key: string)

  const EmptyKey := "Encryption key cannot be empty"
  /** The text of the error Fernet raises for a malformed key. */
  const BadFernetKey := "Fernet key must be 32 url-safe base64-encoded bytes."
  const NotFoundPrefix := "Encryption key not found in environment variable "
  const InitFailedPrefix := "Failed to initialize encryption manager: "

  /** The characters `str.strip` removes: those for which Python's
      `str.isspace` holds. */
  predicate IsSpace(ch: char)
  {
    ('\U{9}' <= ch <= '\U{D}') || ('\U{1C}' <= ch <= '\U{20}')
    || ch == '\U{85}' || ch == '\U{A0}' || ch == '\U{1680}'
    || ('\U{2000}' <= ch <= '\U{200A}') || ch == '\U{2028}' || ch == '\U{2029}'
    || ch == '\U{202F}' || ch == '\U{205F}' || ch == '\U{3000}'
  }

  predicate Blank(s: string)
  {
    forall i :: 0 <= i < |s| ==> IsSpace(s[i])
  }

  predicate StartsWith(s: string, prefix: string)
  {
    |prefix| <= |s| && s[..|prefix|] == prefix
  }

  /** `Encryptor(key)`. A given key that is empty or only whitespace is
      refused before Fernet sees it; a given key Fernet does not `accept` is
      refused by Fernet; with no key, the `generated` one is used. */
  function NewEncryptor(key: Option<string>, generated: string, accepts: string -> bool): (r: Result<Encryptor>)
    ensures key.Some? && Blank(key.value) ==> r == Err(ValueError(EmptyKey))
    ensures key.Some? && !Blank(key.value) ==>
              (r.Ok? <==> accepts(key.value)) && (r.Ok? ==> r.value.key == key.value)
              && (r.Err? ==> r.failure == ValueError(BadFernetKey))
    ensures key.None? ==> r == Ok(Encryptor(generated))
  {
    match key
    case None => Ok(Encryptor(generated))
    case Some(k) =>
      if k == "" || Blank(k) then Err(ValueError(EmptyKey))
      else if !accepts(k) then Err(ValueError(BadFernetKey))
      else Ok(Encryptor(k))
  }

  /** `initialize_encryption`, given what the environment holds under
      `envName`: an unset or empty variable is an EncryptionError, and so is
      any failure of the constructor, wrapped. */
  function InitializeEncryption(envName: string, envValue: Option<string>, accepts: string -> bool): (r: Result<Encryptor>)
    ensures (envValue.None? || envValue == Some("")) ==> r == Err(EncryptionError(NotFoundPrefix + envName))
    ensures envValue.Some? && envValue.value != "" ==>
              (r.Ok? <==> !Blank(envValue.value) && accepts(envValue.value))
              && (r.Ok? ==> r.value.key == envValue.value)
              && (r.Err? ==> r.failure.EncryptionError? && StartsWith(r.failure.message, InitFailedPrefix))
  {
    if envValue.None? || envValue.value == "" then Err(EncryptionError(NotFoundPrefix + envName))
    else match NewEncryptor(envValue, envValue.value, accepts)
      case Ok(e) => Ok(e)
      case Err(f) => Err(EncryptionError(InitFailedPrefix + f.message))
  }

  /** `str(value)`: a string is itself; anything else is shown by `show`. */
  function PyStr(v: Json, show: Json -> string): string
  {
    if v.JStr? then v.s else show(v)
  }

  /** `EncryptedField.encrypt`: a string is encrypted as it is; any other
      value as its `str()`. */
  function FieldEncrypt(c: Cipher, v: Json, show: Json -> string): (r: string)
    ensures v.JStr? ==> r == c.encrypt(v.s)
    ensures !v.JStr? ==> r == c.encrypt(show(v))
  {
    c.encrypt(PyStr(v, show))
  }

  /** `EncryptedField.decrypt`: both of its branches decrypt, so a failure
      propagates either way. */
  function FieldDecrypt(c: Cipher, value: string): (r: Option<string>)
    ensures Inverts(c) ==> forall s :: value == c.encrypt(s) ==> r == Some(s)
  {
    c.decrypt(value)
  }

  /** A value stored through an encrypted field reads back as its text. */
  lemma FieldRoundTrip(c: Cipher, v: Json, show: Json -> string)
    requires Inverts(c)
    ensures FieldDecrypt(c, FieldEncrypt(c, v, show)) == Some(PyStr(v, show))
  {
    assert c.decrypt(c.encrypt(PyStr(v, show))) == Some(PyStr(v, show));
  }

  // ---------------------------------------------------------------------
  // Whole dictionaries
  // ---------------------------------------------------------------------

  /** What `encrypt_sensitive_data` stores for a listed, non-null value. */
  function Sealed(c: Cipher, v: Json, show: Json -> string): Json
  {
    JStr(c.encrypt(PyStr(v, show)))
  }

  /** What `decrypt_sensitive_data` stores for a listed, non-null value: the
      decrypted text, parsed when `parse` reads it as JSON, or null when
      decryption fails (as it does for a value that is not text). */
  function Opened(c: Cipher, v: Json, parse: string -> Option<Json>): Json
  {
    var plain := if v.JStr? then c.decrypt(v.s) else None;
    match plain
    case None => JNull
    case Some(p) => match parse(p) case Some(j) => j case None => JStr(p)
  }

  /** Each field of `fields` in turn, applied to the copy: a listed field
      that is present and not null is replaced by `step` of its value. */
  function Sweep(m: map<string, Json>, fields: seq<string>, step: Json -> Json): map<string, Json>
    decreases |fields|
  {
    if fields == [] then m
    else
      var prev := Sweep(m, fields[..|fields| - 1], step);
      var f := fields[|fields| - 1];
      if f in prev && !prev[f].JNull? then prev[f := step(prev[f])] else prev
  }

  function EncryptFields(c: Cipher, m: map<string, Json>, fields: seq<string>, show: Json -> string): map<string, Json>
  {
    Sweep(m, fields, v => Sealed(c, v, show))
  }

  function DecryptFields(c: Cipher, m: map<string, Json>, fields: seq<string>, parse: string -> Option<Json>): map<string, Json>
  {
    Sweep(m, fields, v => Opened(c, v, parse))
  }

  /** `encrypt_sensitive_data`: works on a copy, field by field. */
  method EncryptSensitiveData(c: Cipher, data: map<string, Json>, sensitiveFields: seq<string>, show: Json -> string)
    returns (result: map<string, Json>)
    ensures result == EncryptFields(c, data, sensitiveFields, show)
  {
    result := data;
    var i := 0;
    while i < |sensitiveFields|
      invariant 0 <= i <= |sensitiveFields|
      invariant result == EncryptFields(c, data, sensitiveFields[..i], show)
    {
      var field := sensitiveFields[i];
      if field in result && !result[field].JNull? {
        result := result[field := JStr(c.encrypt(PyStr(result[field], show)))];
      }
      assert sensitiveFields[..i + 1][..i] == sensitiveFields[..i];
      i := i + 1;
    }
    assert sensitiveFields[..|sensitiveFields|] == sensitiveFields;
  }

  /** `decrypt_sensitive_data`: works on a copy, field by field. */
  method DecryptSensitiveData(c: Cipher, data: map<string, Json>, sensitiveFields: seq<string>,
                              parse: string -> Option<Json>)
    returns (result: map<string, Json>)
    ensures result == DecryptFields(c, data, sensitiveFields, parse)
  {
    result := data;
    var i := 0;
    while i < |sensitiveFields|
      invariant 0 <= i <= |sensitiveFields|
      invariant result == DecryptFields(c, data, sensitiveFields[..i], parse)
    {
      var field := sensitiveFields[i];
      if field in result && !result[field].JNull? {
        var plain := if result[field].JStr? then c.decrypt(result[field].s) else None;
        if plain.None? {
          result := result[field := JNull];
        } else {
          result := result[field := JStr(plain.value)];
          var parsed := parse(plain.value);
          if parsed.Some? {
            result := result[field := parsed.value];
          }
        }
      }
      assert sensitiveFields[..i + 1][..i] == sensitiveFields[..i];
      i := i + 1;
    }
    assert sensitiveFields[..|sensitiveFields|] == sensitiveFields;
  }

  /** A sweep keeps the key set; it leaves unlisted, absent and null fields
      as they were; a field listed once that holds a value ends up holding
      `step` of that value. */
  lemma {:induction false} SweepSpec(m: map<string, Json>, fields: seq<string>, step: Json -> Json)
    ensures Sweep(m, fields, step).Keys == m.Keys
    ensures forall k :: k in m && (k !in fields || m[k].JNull?) ==> Sweep(m, fields, step)[k] == m[k]
    ensures forall i :: 0 <= i < |fields| && fields[i] in m && !m[fields[i]].JNull?
                        && (forall j :: 0 <= j < |fields| && j != i ==> fields[j] != fields[i]) ==>
              Sweep(m, fields, step)[fields[i]] == step(m[fields[i]])
    decreases |fields|
  {
    if fields != [] {
      var front, f := fields[..|fields| - 1], fields[|fields| - 1];
      SweepSpec(m, front, step);
      forall k | k in m && (k !in fields || m[k].JNull?)
        ensures Sweep(m, fields, step)[k] == m[k]
      {
        if k !in fields {
          assert k !in front;
        }
      }
      forall i | 0 <= i < |fields| && fields[i] in m && !m[fields[i]].JNull?
                 && (forall j :: 0 <= j < |fields| && j != i ==> fields[j] != fields[i])
        ensures Sweep(m, fields, step)[fields[i]] == step(m[fields[i]])
      {
        if i < |fields| - 1 {
          assert front[i] == fields[i];
          assert fields[|fields| - 1] != fields[i];
          forall j | 0 <= j < |front| && j != i
            ensures front[j] != front[i]
          {
            assert front[j] == fields[j];
          }
        } else {
          forall j | 0 <= j < |front|
            ensures front[j] != f
          {
            assert front[j] == fields[j];
          }
        }
      }
    }
  }

  /** Encryption keeps the key set and every unlisted, absent or null field;
      a field listed once that holds a value becomes the encryption of the
      value's text. */
  lemma EncryptFieldsSpec(c: Cipher, m: map<string, Json>, fields: seq<string>, show: Json -> string)
    ensures EncryptFields(c, m, fields, show).Keys == m.Keys
    ensures forall k :: k in m && (k !in fields || m[k].JNull?) ==> EncryptFields(c, m, fields, show)[k] == m[k]
    ensures forall i :: 0 <= i < |fields| && fields[i] in m && !m[fields[i]].JNull?
                        && (forall j :: 0 <= j < |fields| && j != i ==> fields[j] != fields[i]) ==>
              EncryptFields(c, m, fields, show)[fields[i]] == JStr(c.encrypt(PyStr(m[fields[i]], show)))
  {
    SweepSpec(m, fields, v => Sealed(c, v, show));
  }

  /** Decryption keeps the key set and every unlisted, absent or null field;
      a field listed once that holds a value becomes its decryption, and
      null when decryption fails. */
  lemma DecryptFieldsSpec(c: Cipher, m: map<string, Json>, fields: seq<string>, parse: string -> Option<Json>)
    ensures DecryptFields(c, m, fields, parse).Keys == m.Keys
    ensures forall k :: k in m && (k !in fields || m[k].JNull?) ==> DecryptFields(c, m, fields, parse)[k] == m[k]
    ensures forall i :: 0 <= i < |fields| && fields[i] in m && !m[fields[i]].JNull?
                        && (forall j :: 0 <= j < |fields| && j != i ==> fields[j] != fields[i]) ==>
              DecryptFields(c, m, fields, parse)[fields[i]] == Opened(c, m[fields[i]], parse)
              && ((!m[fields[i]].JStr? || c.decrypt(m[fields[i]].s).None?) ==>
                    DecryptFields(c, m, fields, parse)[fields[i]] == JNull)
  {
    SweepSpec(m, fields, v => Opened(c, v, parse));
  }

  /** Decrypting what was encrypted, over the same fields listed once each:
      every field is still there; unlisted and null fields are untouched;
      each listed value comes back as its text, parsed as JSON where
      `parse` reads it, so a string that is not JSON comes back as it was. */
  lemma RoundTrip(c: Cipher, m: map<string, Json>, fields: seq<string>,
                  show: Json -> string, parse: string -> Option<Json>)
    requires Inverts(c)
    requires forall i, j :: 0 <= i < j < |fields| ==> fields[i] != fields[j]
    ensures var back := DecryptFields(c, EncryptFields(c, m, fields, show), fields, parse);
            back.Keys == m.Keys
            && (forall k :: k in m && (k !in fields || m[k].JNull?) ==> back[k] == m[k])
            && (forall k :: k in m && k in fields && !m[k].JNull? ==>
                  back[k] == match parse(PyStr(m[k], show)) case Some(j) => j case None => JStr(PyStr(m[k], show)))
            && (forall k :: k in m && k in fields && m[k].JStr? && parse(m[k].s).None? ==> back[k] == m[k])
  {
    var enc := EncryptFields(c, m, fields, show);
    EncryptFieldsSpec(c, m, fields, show);
    DecryptFieldsSpec(c, enc, fields, parse);
    var back := DecryptFields(c, enc, fields, parse);
    forall k | k in m && k in fields && !m[k].JNull?
      ensures back[k] == match parse(PyStr(m[k], show)) case Some(j) => j case None => JStr(PyStr(m[k], show))
    {
      var i :| 0 <= i < |fields| && fields[i] == k;
      assert forall j :: 0 <= j < |fields| && j != i ==> fields[j] != fields[i];
      assert enc[k] == JStr(c.encrypt(PyStr(m[k], show)));
      assert c.decrypt(c.encrypt(PyStr(m[k], show))) == Some(PyStr(m[k], show));
    }
  }
}
