/**
 * core/database.go: an in-memory key-value store holding, per key, a buffer
 * with the JSON encoding of the last value set. The encoder and decoder are
 * parameters. Get's out-parameter is a pointer that json.Decoder decodes
 * into: the decoder is given the bytes and the value the pointer held, and
 * gives back the value it leaves there (merged into the old one, or partly
 * filled on an error) together with its error.
 */
module Database {
  import opened Wrappers
  import opened Core

  /** A decoder run into a pointer: from the bytes and the pointee, the pointee it leaves and its error. */
  type Decoder<!T> = (Bytes, T) -> (T, Option<string>)

  /** What Get makes of a buffer: a missing key leaves `out` and reports no error; otherwise the decoder runs on the stored bytes into `out`. */
  function Read<T>(buffer: map<string, Bytes>, key: string, out: T, decode: Decoder<T>): (r: (T, Option<string>))
    ensures key !in buffer ==> r == (out, None)
    ensures key in buffer ==> r == decode(buffer[key], out)
  {
    if key !in buffer then (out, None) else decode(buffer[key], out)
  }

  /** The buffer after Set: unchanged when encoding fails, else the key holds the encoding alone. */
  function AfterSet<T>(buffer: map<string, Bytes>, key: string, value: T, encode: T -> Result<Bytes, string>): map<string, Bytes> {
    if encode(value).Failure? then buffer else buffer[key := encode(value).value]
  }

  class Store {
    var buffer: map<string, Bytes>

    /** NewDatabase. */
    constructor ()
      ensures buffer == map[]
    {
      buffer := map[];
    }

    /** Set: an encoding failure is returned and changes nothing; otherwise the key's buffer is reset to the encoding. */
    method Set<T>(key: string, value: T, encode: T -> Result<Bytes, string>) returns (err: Option<string>)
      modifies this
      ensures encode(value).Failure? ==> err == Some(encode(value).error) && buffer == old(buffer)
      ensures encode(value).Success? ==> err.None? && buffer == old(buffer)[key := encode(value).value]
      ensures buffer == AfterSet(old(buffer), key, value, encode)
    {
      var data := encode(value);
      if data.Failure? {
        return Some(data.error);
      }
      if key !in buffer {
        buffer := buffer[key := []];
      }
      buffer := buffer[key := []];
      assert buffer[key] + data.value == data.value;
      buffer := buffer[key := buffer[key] + data.value];
      err := None;
    }

    /** Get: decodes the key's buffer into `out`; a missing key leaves `out` as it was, without error. */
    method Get<T>(key: string, out: T, decode: Decoder<T>) returns (value: T, err: Option<string>)
      ensures key !in buffer ==> value == out && err.None?
      ensures key in buffer ==> (value, err) == decode(buffer[key], out)
    {
      if key !in buffer {
        return out, None;
      }
      var decoded := decode(buffer[key], out);
      value, err := decoded.0, decoded.1;
    }

    /** Delete: drops the key. */
    method Delete(key: string)
      modifies this
      ensures buffer == old(buffer) - {key}
    {
      buffer := buffer - {key};
    }
  }

  /**
   * Get after a successful Set decodes exactly the bytes Set stored, into
   * whatever `out` held; with a decoder that overwrites `out` with the value
   * the encoder encoded, Get returns that value.
   */
  lemma SetThenGet<T>(buffer: map<string, Bytes>, key: string, value: T, out: T,
                      encode: T -> Result<Bytes, string>, decode: Decoder<T>)
    requires encode(value).Success?
    ensures Read(AfterSet(buffer, key, value, encode), key, out, decode) == decode(encode(value).value, out)
    ensures decode(encode(value).value, out) == (value, None) ==>
              Read(AfterSet(buffer, key, value, encode), key, out, decode) == (value, None)
  {
  }

  /**
   * A second Set discards the first: when it encodes, every key reads as after
   * the second Set alone; when it fails, the first one's encoding stays.
   */
  lemma SetOverwrites<T>(buffer: map<string, Bytes>, key: string, first: T, second: T,
                         encode: T -> Result<Bytes, string>, other: string, out: T, decode: Decoder<T>)
    ensures encode(second).Success? ==>
              AfterSet(AfterSet(buffer, key, first, encode), key, second, encode) == AfterSet(buffer, key, second, encode)
              && Read(AfterSet(AfterSet(buffer, key, first, encode), key, second, encode), other, out, decode)
                 == Read(AfterSet(buffer, key, second, encode), other, out, decode)
    ensures encode(second).Failure? ==>
              AfterSet(AfterSet(buffer, key, first, encode), key, second, encode) == AfterSet(buffer, key, first, encode)
  {
  }

  /** After Delete the key reads as missing, and every other key reads as before. */
  lemma DeleteOnlyKey<T>(buffer: map<string, Bytes>, key: string, other: string, out: T, decode: Decoder<T>)
    ensures Read(buffer - {key}, key, out, decode) == (out, None)
    ensures other != key ==> Read(buffer - {key}, other, out, decode) == Read(buffer, other, out, decode)
  {
  }
}
