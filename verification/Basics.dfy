/** Byte strings and the failure-compatible datatypes shared by every module. */
module Basics {

  /** One C++ `char`, read as an unsigned byte. */
  newtype byte = x: int | 0 <= x < 256

  /** A `std::string` used as a byte string. */
  type bytes = seq<byte>

  datatype Option<+T> = None | Some(value: T)

  datatype Result<+T> = Success(value: T) | Failure

  function Min(a: nat, b: nat): (m: nat)
    ensures m <= a && m <= b && (m == a || m == b)
  {
    if a <= b then a else b
  }

  /** The bytes of an ASCII string literal. */
  function Ascii(text: string): (b: bytes)
    ensures |b| == |text|
    ensures forall i :: 0 <= i < |text| && text[i] < '\U{100}' ==> b[i] as int == text[i] as int
  {
    seq(|text|, i requires 0 <= i < |text| => (text[i] as int % 256) as byte)
  }

  // ------------------------------------------------------------ sums

  ghost function Sum(m: map<nat, nat>, keys: set<nat>): nat
    requires keys <= m.Keys
  {
    if keys == {} then 0
    else
      var key :| key in keys;
      m[key] + Sum(m, keys - {key})
  }

  lemma {:induction false} SumOf(m: map<nat, nat>, keys: set<nat>, key: nat)
    requires keys <= m.Keys && key in keys
    ensures Sum(m, keys) == m[key] + Sum(m, keys - {key})
    decreases keys
  {
    var first :| first in keys && Sum(m, keys) == m[first] + Sum(m, keys - {first});
    if first != key {
      SumOf(m, keys - {first}, key);
      SumOf(m, keys - {key}, first);
      assert keys - {first} - {key} == keys - {key} - {first};
    }
  }

  lemma {:induction false} SumShrinks(m: map<nat, nat>, m': map<nat, nat>, keys: set<nat>, keys': set<nat>)
    requires keys <= m.Keys && keys' <= keys && keys' <= m'.Keys
    requires forall key :: key in keys' ==> m'[key] <= m[key]
    ensures Sum(m', keys') <= Sum(m, keys)
    decreases keys
  {
    if keys != {} {
      var key :| key in keys;
      SumOf(m, keys, key);
      SumShrinks(m, m', keys - {key}, keys' - {key});
      if key in keys' {
        SumOf(m', keys', key);
      } else {
        assert keys' - {key} == keys';
      }
    }
  }

  ghost function Gather(parts: seq<multiset<nat>>): multiset<nat> {
    if parts == [] then multiset{} else Gather(parts[..|parts| - 1]) + parts[|parts| - 1]
  }

  /** If one part grows by `more`, so does the whole. */
  lemma {:induction false} GatherGrows(parts: seq<multiset<nat>>, i: nat, more: multiset<nat>)
    requires i < |parts|
    ensures Gather(parts[i := parts[i] + more]) == Gather(parts) + more
  {
    var n := |parts| - 1;
    var grown := parts[i := parts[i] + more];
    if i == n {
      assert grown[..n] == parts[..n];
      assert Gather(grown) == Gather(parts[..n]) + (parts[n] + more);
    } else {
      assert grown[..n] == parts[..n][i := parts[..n][i] + more];
      GatherGrows(parts[..n], i, more);
      assert Gather(grown) == (Gather(parts[..n]) + more) + parts[n];
    }
  }

  lemma {:induction false} GatherContains(parts: seq<multiset<nat>>, i: nat)
    requires i < |parts|
    ensures parts[i] <= Gather(parts)
  {
    var n := |parts| - 1;
    if i < n {
      GatherContains(parts[..n], i);
      assert parts[i] == parts[..n][i];
    }
  }

  lemma {:induction false} GatherShrinks(parts: seq<multiset<nat>>, parts': seq<multiset<nat>>)
    requires |parts'| == |parts| && forall i :: 0 <= i < |parts| ==> parts'[i] <= parts[i]
    ensures Gather(parts') <= Gather(parts)
  {
    if parts != [] {
      var n := |parts| - 1;
      GatherShrinks(parts[..n], parts'[..n]);
      assert parts'[n] <= parts[n];
    }
  }

  /** What one side of a balance gains, the other side loses. */
  lemma Balance(held: multiset<nat>, released: multiset<nat>, held': multiset<nat>, released': multiset<nat>)
    requires held' + released' == held + released && released <= released'
    ensures held' <= held
  {
    forall x
      ensures held'[x] <= held[x]
    {
      assert (held' + released')[x] == (held + released)[x];
      assert released[x] <= released'[x];
    }
  }
}
