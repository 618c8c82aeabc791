/** Shared values: optional values, raised results, the text shapes that durable
    records are checked for, and the insertion-ordered dictionary of reservations. */
module Common {

  /** Seconds of a day. */
  const DAY := 86_400

  datatype Option<+T> = None | Some(value: T)

  /** A call that returns a value or raises.  Usable with `:-`. */
  datatype Result<+T> = Ok(value: T) | Raised {
    predicate IsFailure() {
      Raised?
    }

    function PropagateFailure<U>(): Result<U>
      requires Raised?
    {
      Raised
    }

    function Extract(): T
      requires Ok?
    {
      value
    }
  }

  /** A non-empty string is present. */
  predicate Truthy(text: Option<string>) {
    text.Some? && text.value != ""
  }

  predicate LowerHexChar(c: char) {
    '0' <= c <= '9' || 'a' <= c <= 'f'
  }

  predicate HexChar(c: char) {
    LowerHexChar(c) || 'A' <= c <= 'F'
  }

  predicate LowerHex(s: string, length: nat) {
    |s| == length && forall i :: 0 <= i < |s| ==> LowerHexChar(s[i])
  }

  predicate Hex(s: string, length: nat) {
    |s| == length && forall i :: 0 <= i < |s| ==> HexChar(s[i])
  }

  function LowerChar(c: char): char {
    if 'A' <= c <= 'Z' then 'a' + (c - 'A') else c
  }

  function Lower(s: string): string {
    seq(|s|, i requires 0 <= i < |s| => LowerChar(s[i]))
  }

  function UpperChar(c: char): char {
    if 'a' <= c <= 'z' then 'A' + (c - 'a') else c
  }

  function Upper(s: string): string {
    seq(|s|, i requires 0 <= i < |s| => UpperChar(s[i]))
  }

  /** A download id is hexadecimal in either case as soon as its lower case is a torrent hash. */
  lemma LowerOfHash(download: string, hash: string)
    requires Lower(download) == hash
    requires LowerHex(hash, 40)
    ensures Hex(download, 40)
  {
    forall i | 0 <= i < |download|
      ensures HexChar(download[i])
    {
      assert hash[i] == LowerChar(download[i]);
    }
  }

  lemma HashOfHash(hash: string)
    requires LowerHex(hash, 40)
    ensures Hex(hash, 40) && Lower(hash) == hash
    ensures Hex(Upper(hash), 40) && Lower(Upper(hash)) == hash
  {
  }

  predicate Decimal(s: string) {
    s != "" && forall i :: 0 <= i < |s| ==> '0' <= s[i] <= '9'
  }

  /** Decimal digits whose value is positive. */
  predicate PositiveDecimal(s: string) {
    Decimal(s) && exists i :: 0 <= i < |s| && s[i] != '0'
  }

  /** Decimal digits printed without a leading zero. */
  predicate CanonicalDecimal(s: string) {
    Decimal(s) && (|s| == 1 || s[0] != '0')
  }

  /** The number that decimal digits denote. */
  function DecimalValue(s: string): int {
    if s == "" then 0 else DecimalValue(s[..|s| - 1]) * 10 + (s[|s| - 1] as int - '0' as int)
  }

  /** The parts of a text between separators; there is always at least one. */
  function Split(s: string, separator: char): (parts: seq<string>)
    ensures |parts| >= 1
  {
    if s == "" then [""]
    else
      var rest := Split(s[1..], separator);
      if s[0] == separator then [""] + rest else [[s[0]] + rest[0]] + rest[1..]
  }

  /** The canonical 8-4-4-4-12 form of a UUID. */
  predicate CanonicalUuid(s: string) {
    |s| == 36 && forall i :: 0 <= i < 36 ==>
      if i in {8, 13, 18, 23} then s[i] == '-' else LowerHexChar(s[i])
  }

  /** A canonical RFC 4122 UUID of the given version digit. */
  predicate UuidOfVersion(s: string, version: char) {
    CanonicalUuid(s) && s[14] == version && s[19] in {'8', '9', 'a', 'b'}
  }

  /** A dictionary that keeps its insertion order. */
  datatype Dict<V> = Dict(keys: seq<string>, at: map<string, V>) {
    ghost predicate Valid() {
      && (forall i, j :: 0 <= i < j < |keys| ==> keys[i] != keys[j])
      && (forall i :: 0 <= i < |keys| ==> keys[i] in at)
      && (forall k :: k in at ==> k in keys)
    }

    function Put(k: string, v: V): Dict<V> {
      Dict(if k in at then keys else keys + [k], at[k := v])
    }

    lemma PutValid(k: string, v: V)
      requires Valid()
      ensures Put(k, v).Valid()
    {
      var next := Put(k, v);
      forall x | x in next.at
        ensures x in next.keys
      {
        if x == k && k !in at {
          assert next.keys[|keys|] == k;
        } else {
          var i :| 0 <= i < |keys| && keys[i] == x;
          assert next.keys[i] == x;
        }
      }
    }
  }

  function EmptyDict<V>(): Dict<V> {
    Dict([], map[])
  }

  /** Writes or erases one key. */
  function Store<V>(m: map<string, V>, k: string, o: Option<V>): map<string, V> {
    match o
    case None => m - {k}
    case Some(v) => m[k := v]
  }

  function Lookup<V>(m: map<string, V>, k: string): Option<V> {
    if k in m then Some(m[k]) else None
  }
}
