/** The adapter that turns the retrying client's log calls into structured
    log fields (levelledLogger.additionalFields). */
module Logging {

  /** Key and value of the j-th complete pair of the flat list. */
  function Key<T>(kv: seq<T>, j: nat): T
    requires 2 * j + 1 < |kv|
  {
    kv[2 * j]
  }

  function Val<T>(kv: seq<T>, j: nat): T
    requires 2 * j + 1 < |kv|
  {
    kv[2 * j + 1]
  }

  /** The map built from the first k pairs, each later pair overwriting. */
  function FirstPairs<T>(kv: seq<T>, sprint: T -> string, k: nat): map<string, T>
    requires 2 * k <= |kv|
  {
    if k == 0 then map[] else FirstPairs(kv, sprint, k - 1)[sprint(Key(kv, k - 1)) := Val(kv, k - 1)]
  }

  /** The fields of a flat key/value list: every complete pair, in order. */
  function Fields<T>(kv: seq<T>, sprint: T -> string): map<string, T>
  {
    FirstPairs(kv, sprint, |kv| / 2)
  }

  /** additionalFields: walks the list two at a time while a pair is
      complete, keying each value by fmt.Sprint of the element before it
      (sprint stands for fmt.Sprint). */
  method AdditionalFields<T>(keysAndValues: seq<T>, sprint: T -> string) returns (fields: map<string, T>)
    ensures fields == Fields(keysAndValues, sprint)
  {
    fields := map[];
    var i := 0;
    while i + 1 < |keysAndValues|
      invariant 0 <= i <= |keysAndValues| && i % 2 == 0
      invariant fields == FirstPairs(keysAndValues, sprint, i / 2)
    {
      fields := fields[sprint(keysAndValues[i]) := keysAndValues[i + 1]];
      i := i + 2;
    }
  }

  /** A name is a field exactly when some complete pair has it as key. */
  lemma {:induction false} FirstPairsKeys<T>(kv: seq<T>, sprint: T -> string, k: nat, name: string)
    requires 2 * k <= |kv|
    ensures name in FirstPairs(kv, sprint, k) <==> exists j :: 0 <= j < k && sprint(Key(kv, j)) == name
  {
    if k > 0 {
      FirstPairsKeys(kv, sprint, k - 1, name);
    }
  }

  lemma FieldsKeys<T>(kv: seq<T>, sprint: T -> string, name: string)
    ensures name in Fields(kv, sprint) <==> exists j :: 0 <= j < |kv| / 2 && sprint(Key(kv, j)) == name
  {
    FirstPairsKeys(kv, sprint, |kv| / 2, name);
  }

  /** A key keeps the value of its last pair: a repeated key is overwritten. */
  lemma {:induction false} FirstPairsLastWins<T>(kv: seq<T>, sprint: T -> string, k: nat, j: nat)
    requires 2 * k <= |kv| && j < k
    requires forall j' :: j < j' < k ==> sprint(Key(kv, j')) != sprint(Key(kv, j))
    ensures sprint(Key(kv, j)) in FirstPairs(kv, sprint, k)
    ensures FirstPairs(kv, sprint, k)[sprint(Key(kv, j))] == Val(kv, j)
  {
    if j < k - 1 {
      FirstPairsLastWins(kv, sprint, k - 1, j);
    }
  }

  lemma FieldsLastWins<T>(kv: seq<T>, sprint: T -> string, j: nat)
    requires j < |kv| / 2
    requires forall j' :: j < j' < |kv| / 2 ==> sprint(Key(kv, j')) != sprint(Key(kv, j))
    ensures sprint(Key(kv, j)) in Fields(kv, sprint)
    ensures Fields(kv, sprint)[sprint(Key(kv, j))] == Val(kv, j)
  {
    FirstPairsLastWins(kv, sprint, |kv| / 2, j);
  }

  /** There are never more fields than complete pairs. */
  lemma {:induction false} FirstPairsSize<T>(kv: seq<T>, sprint: T -> string, k: nat)
    requires 2 * k <= |kv|
    ensures |FirstPairs(kv, sprint, k)| <= k
  {
    if k > 0 {
      FirstPairsSize(kv, sprint, k - 1);
      var m := FirstPairs(kv, sprint, k - 1);
      var name := sprint(Key(kv, k - 1));
      if name in m {
        assert m[name := Val(kv, k - 1)].Keys == m.Keys;
      } else {
        assert m[name := Val(kv, k - 1)].Keys == m.Keys + {name};
      }
    }
  }

  lemma FieldsSize<T>(kv: seq<T>, sprint: T -> string)
    ensures |Fields(kv, sprint)| <= |kv| / 2
  {
    FirstPairsSize(kv, sprint, |kv| / 2);
  }

  /** The pairs depend only on the elements they read. */
  lemma {:induction false} FirstPairsPrefix<T>(kv: seq<T>, kv': seq<T>, sprint: T -> string, k: nat)
    requires 2 * k <= |kv| && 2 * k <= |kv'|
    requires kv[..2 * k] == kv'[..2 * k]
    ensures FirstPairs(kv, sprint, k) == FirstPairs(kv', sprint, k)
  {
    if k > 0 {
      assert kv[..2 * (k - 1)] == kv[..2 * k][..2 * (k - 1)];
      assert kv'[..2 * (k - 1)] == kv'[..2 * k][..2 * (k - 1)];
      FirstPairsPrefix(kv, kv', sprint, k - 1);
      assert kv[..2 * k][2 * (k - 1)] == kv[2 * (k - 1)];
      assert kv'[..2 * k][2 * (k - 1)] == kv'[2 * (k - 1)];
      assert kv[..2 * k][2 * (k - 1) + 1] == kv[2 * (k - 1) + 1];
      assert kv'[..2 * k][2 * (k - 1) + 1] == kv'[2 * (k - 1) + 1];
    }
  }

  /** A trailing key without a value is dropped. */
  lemma OddTrailingDropped<T>(kv: seq<T>, sprint: T -> string, extra: T)
    requires |kv| % 2 == 0
    ensures Fields(kv + [extra], sprint) == Fields(kv, sprint)
  {
    assert |(kv + [extra])| / 2 == |kv| / 2;
    assert (kv + [extra])[..|kv|] == kv[..|kv|];
    FirstPairsPrefix(kv + [extra], kv, sprint, |kv| / 2);
  }
}
