/** The first free key in the sequence key, base1, base2, ... */
module UniqueKey {
  import Sets
  import opened Text

  /** Below this, JavaScript adds and prints whole numbers exactly. */
  const MAX_EXACT: nat := 0x20_0000_0000_0000

  /** `key.replace(/\d+$/, "")`. */
  function Base(key: string): (base: string)
    ensures base <= key && AllDigits(key[|base|..]) && (base != [] ==> !IsDigit(base[|base| - 1]))
  {
    if key != [] && IsDigit(key[|key| - 1]) then
      var base := Base(key[..|key| - 1]);
      assert key[|base|..] == key[..|key| - 1][|base|..] + [key[|key| - 1]];
      base
    else key
  }

  /** The number a key ends with, or 0. */
  function Number(key: string): nat {
    Numeral(key[|Base(key)|..])
  }

  /** The key itself, then its successors. */
  function Successor(key: string, n: nat): string {
    if n == 0 then key else Base(key) + Decimal(Number(key) + n)
  }

  function Distinct(keys: seq<string>): set<string> {
    set key | key in keys
  }

  /** What follows the base in a successor reads as its number. */
  lemma TailReads(key: string, n: nat)
    ensures Base(key) <= Successor(key, n)
    ensures var tail := Successor(key, n)[|Base(key)|..]; AllDigits(tail) && Numeral(tail) == Number(key) + n
  {
    if n > 0 {
      DecimalReads(Number(key) + n);
      assert Successor(key, n)[|Base(key)|..] == Decimal(Number(key) + n);
    }
  }

  /** Printing is injective, so the keys tried are all different. */
  lemma SuccessorsDiffer(key: string, i: nat, j: nat)
    requires i < j
    ensures Successor(key, i) != Successor(key, j)
  {
    TailReads(key, i);
    TailReads(key, j);
  }

  function Tried(key: string, n: nat): set<string> {
    set i: nat | i < n :: Successor(key, i)
  }

  lemma {:induction false} TriedIsLarge(key: string, n: nat)
    ensures |Tried(key, n)| == n
  {
    if n > 0 {
      TriedIsLarge(key, n - 1);
      assert Tried(key, n) == Tried(key, n - 1) + {Successor(key, n - 1)};
      assert Successor(key, n - 1) !in Tried(key, n - 1) by {
        forall i: nat | i < n - 1
          ensures Successor(key, i) != Successor(key, n - 1)
        {
          SuccessorsDiffer(key, i, n - 1);
        }
      }
    }
  }

  /** As many keys as were tried and taken exist. */
  lemma TakenAreFew(key: string, keys: seq<string>, n: nat)
    requires forall i: nat :: i < n ==> Successor(key, i) in keys
    ensures n <= |Distinct(keys)|
  {
    TriedIsLarge(key, n);
    Sets.SubsetSize(Tried(key, n), Distinct(keys));
  }

  /** The first successor that is free: found within as many iterations as there are distinct keys. */
  ghost predicate FirstFree(key: string, keys: seq<string>, n: nat) {
    Successor(key, n) !in keys && forall i: nat :: i < n ==> Successor(key, i) in keys
  }

  method GenerateUniqueKey(key: string, existingKeys: seq<string>) returns (newKey: string, ghost iterations: nat)
    requires Number(key) + |Distinct(existingKeys)| < MAX_EXACT
    ensures newKey == Successor(key, iterations) && FirstFree(key, existingKeys, iterations)
    ensures newKey !in existingKeys && iterations <= |Distinct(existingKeys)|
  {
    newKey := key;
    var counter: nat := 1;
    while newKey in existingKeys
      invariant counter >= 1 && newKey == Successor(key, counter - 1)
      invariant forall i: nat :: i < counter - 1 ==> Successor(key, i) in existingKeys
      invariant counter - 1 <= |Distinct(existingKeys)|
      decreases |Distinct(existingKeys)| + 1 - counter
    {
      TakenAreFew(key, existingKeys, counter);
      var baseKey := Base(key);
      if key != baseKey {
        var originalNumber := Numeral(key[|baseKey|..]);
        newKey := baseKey + Decimal(originalNumber + counter);
      } else {
        newKey := baseKey + Decimal(counter);
      }
      counter := counter + 1;
    }
    iterations := counter - 1;
  }
}
