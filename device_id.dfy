/** The per-browser device id: read from the key-value store under one key, or
    generated and stored on first use. The random fragment and the clock are inputs. */
module DeviceId {
  import opened Wrappers

  const StorageKey := "deviceId"

  /** The browser's local storage. */
  class Storage {
    var items: map<string, string>

    constructor (items0: map<string, string>)
      ensures items == items0
    {
      items := items0;
    }
  }

  /** The base-36 digit of a value below 36 (`Number.prototype.toString(36)`). */
  function Digit36(d: nat): (c: char)
    requires d < 36
    ensures IsDigit36(c) && DigitValue36(c) == d
  {
    if d < 10 then ('0' as int + d) as char else ('a' as int + d - 10) as char
  }

  predicate IsDigit36(c: char) {
    '0' <= c <= '9' || 'a' <= c <= 'z'
  }

  function DigitValue36(c: char): nat
    requires IsDigit36(c)
  {
    if '0' <= c <= '9' then c as int - '0' as int else c as int - 'a' as int + 10
  }

  /** `n.toString(36)`: the shortest base-36 numeral of `n`. */
  function ToBase36(n: nat): (s: string)
    ensures |s| >= 1
    ensures forall i :: 0 <= i < |s| ==> IsDigit36(s[i])
    ensures |s| > 1 ==> s[0] != '0'
    decreases n
  {
    if n < 36 then [Digit36(n)] else ToBase36(n / 36) + [Digit36(n % 36)]
  }

  /** The value of a base-36 numeral. */
  function FromBase36(s: string): nat
    requires forall i :: 0 <= i < |s| ==> IsDigit36(s[i])
  {
    if s == [] then 0 else FromBase36(s[..|s| - 1]) * 36 + DigitValue36(s[|s| - 1])
  }

  /** Reading a timestamp's numeral gives the timestamp back. */
  lemma {:induction false} Base36RoundTrip(n: nat)
    ensures FromBase36(ToBase36(n)) == n
    decreases n
  {
    var s := ToBase36(n);
    if n < 36 {
      assert s[..0] == [];
    } else {
      Base36RoundTrip(n / 36);
      assert s[..|s| - 1] == ToBase36(n / 36);
    }
  }

  /** `generateDeviceId`: the prefix `device_`, the random fragment, `_` and the
      timestamp in base 36. */
  function GeneratedId(fragment: string, now: nat): (id: string)
    ensures |id| > 0
  {
    "device_" + fragment + "_" + ToBase36(now)
  }

  /** The characters after the last `_` of an id. */
  function AfterLastUnderscore(s: string): (r: string)
    ensures '_' !in r
    ensures |r| <= |s| && r == s[|s| - |r|..]
  {
    if s == [] || s[|s| - 1] == '_' then [] else AfterLastUnderscore(s[..|s| - 1]) + [s[|s| - 1]]
  }

  lemma {:induction false} AfterLastUnderscoreOf(a: string, b: string)
    requires '_' !in b
    ensures AfterLastUnderscore(a + "_" + b) == b
    decreases |b|
  {
    var s := a + "_" + b;
    if b != [] {
      assert s[..|s| - 1] == a + "_" + b[..|b| - 1];
      AfterLastUnderscoreOf(a, b[..|b| - 1]);
      assert b == b[..|b| - 1] + [b[|b| - 1]];
    }
  }

  /** The timestamp a generated id was made at can be read back from it, whatever
      the fragment holds. */
  lemma GeneratedIdTimestamp(fragment: string, now: nat)
    ensures var t := AfterLastUnderscore(GeneratedId(fragment, now));
            (forall i :: 0 <= i < |t| ==> IsDigit36(t[i])) && FromBase36(t) == now
  {
    var digits := ToBase36(now);
    assert '_' !in digits by {
      forall i | 0 <= i < |digits| ensures digits[i] != '_' {
        assert IsDigit36(digits[i]);
      }
    }
    AfterLastUnderscoreOf("device_" + fragment, digits);
    Base36RoundTrip(now);
  }

  /** Whether the store already holds a usable id (`localStorage.getItem` is not
      null and not the empty string). */
  predicate HasId(items: map<string, string>) {
    StorageKey in items && items[StorageKey] != ""
  }

  /** `getDeviceId`: the stored id, or a fresh one that is stored under the key
      before it is returned. No other key is read or written. */
  method GetDeviceId(storage: Storage, fragment: string, now: nat) returns (id: string)
    modifies storage
    ensures HasId(old(storage.items)) ==> id == old(storage.items)[StorageKey] && storage.items == old(storage.items)
    ensures !HasId(old(storage.items)) ==>
              id == GeneratedId(fragment, now) && storage.items == old(storage.items)[StorageKey := id]
    ensures HasId(storage.items) && storage.items[StorageKey] == id
    ensures forall k :: k != StorageKey ==> (k in storage.items <==> k in old(storage.items))
    ensures forall k :: k != StorageKey && k in storage.items ==> storage.items[k] == old(storage.items)[k]
  {
    var stored := if StorageKey in storage.items then Some(storage.items[StorageKey]) else None;
    if stored.Some? && stored.value != "" {
      id := stored.value;
    } else {
      id := GeneratedId(fragment, now);
      storage.items := storage.items[StorageKey := id];
    }
  }

  /** Two consecutive calls return the same id, whatever fragments and clocks they see. */
  method GetDeviceIdTwice(storage: Storage, fragment1: string, now1: nat, fragment2: string, now2: nat)
    returns (first: string, second: string)
    modifies storage
    ensures first == second
    ensures HasId(old(storage.items)) ==> first == old(storage.items)[StorageKey]
  {
    first := GetDeviceId(storage, fragment1, now1);
    second := GetDeviceId(storage, fragment2, now2);
  }
}
