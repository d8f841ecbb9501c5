/**
 * Values shared by both wallet variants: account addresses, call data, and
 * facts about the address lists handed to a wallet's constructor.
 */
module Common {

  /** An account address. The wallet only ever compares addresses for equality. */
  type Address = nat

  /** One byte of the call data attached to a transaction. */
  newtype Byte = x: int | 0 <= x < 256

  type Bytes = seq<Byte>

  /** The set of addresses named in a constructor's address list. */
  function Elements(list: seq<Address>): set<Address>
  {
    set a | a in list
  }

  /** No address is listed twice. */
  predicate Distinct(list: seq<Address>)
  {
    forall i, j :: 0 <= i < j < |list| ==> list[i] != list[j]
  }

  /** A list without repetitions names exactly as many addresses as it is long. */
  lemma {:induction false} DistinctCount(list: seq<Address>)
    requires Distinct(list)
    ensures |Elements(list)| == |list|
  {
    if list != [] {
      var rest := list[1..];
      assert Distinct(rest) by {
        forall i, j | 0 <= i < j < |rest| ensures rest[i] != rest[j] {
          assert rest[i] == list[i + 1] && rest[j] == list[j + 1];
        }
      }
      DistinctCount(rest);
      assert Elements(list) == {list[0]} + Elements(rest) by {
        forall a ensures a in Elements(list) <==> a in {list[0]} + Elements(rest) {
          if a in list && a != list[0] {
            var k :| 0 <= k < |list| && list[k] == a;
            assert rest[k - 1] == a;
          }
        }
      }
      assert list[0] !in Elements(rest);
    }
  }

  /** A subset is never larger than the set that contains it. */
  lemma SubsetCount(a: set<Address>, b: set<Address>)
    requires a <= b
    ensures |a| <= |b|
  {
    assert b == a + (b - a);
  }
}
