/** The shot loop of fire_discrete_shots: a 32-bit counter polled until enough shots were counted. */
module ShotCount {
  import opened LaserStates

  /** `totals[k]` is the number of shots ever fired at poll k, `totals[0]` the first reading. What the
      loop compares is the difference of two 32-bit readings, in 32-bit arithmetic. */
  function Counted(totals: seq<nat>, k: nat): nat
    requires k < |totals|
  {
    (totals[k] % WORD - totals[0] % WORD) % WORD
  }

  function Fired(totals: seq<nat>, k: nat): nat
    requires k < |totals| && totals[0] <= totals[k]
  {
    totals[k] - totals[0]
  }

  /** Shots only add up, by at most `d` from one poll to the next. */
  predicate Advances(totals: seq<nat>, d: nat)
  {
    totals != [] && forall k :: 0 <= k < |totals| - 1 ==> totals[k] <= totals[k + 1] <= totals[k] + d
  }

  /** The loop has ended by poll k. */
  predicate Ended(totals: seq<nat>, num: nat, k: nat)
    requires k < |totals|
  {
    exists j :: 0 < j <= k && Counted(totals, j) >= num
  }

  /** Polls until the difference reaches `num`, or there is no further poll. */
  method CountShots(totals: seq<nat>, num: nat) returns (k: nat)
    requires totals != []
    ensures 0 < k <= |totals|
    ensures k < |totals| ==> Counted(totals, k) >= num
    ensures forall j :: 0 < j < k ==> Counted(totals, j) < num
  {
    var previous := totals[0] % WORD;
    k := 1;
    while k < |totals| && (totals[k] % WORD - previous) % WORD < num
      invariant 0 < k <= |totals|
      invariant forall j :: 0 < j < k ==> Counted(totals, j) < num
    {
      k := k + 1;
    }
  }

  lemma {:induction false} NeverBack(totals: seq<nat>, d: nat, k: nat)
    requires Advances(totals, d) && k < |totals|
    ensures totals[0] <= totals[k]
  {
    if k > 0 {
      NeverBack(totals, d, k - 1);
      assert totals[k - 1] <= totals[k - 1 + 1];
    }
  }

  /** The loop counts modulo 2^32, wherever the counter starts. */
  lemma CountedIsFired(totals: seq<nat>, d: nat, k: nat)
    requires Advances(totals, d) && k < |totals|
    ensures totals[0] <= totals[k] && Counted(totals, k) == Fired(totals, k) % 4294967296
  {
    NeverBack(totals, d, k);
    var x, y := totals[0], totals[k];
    assert x == x / WORD * WORD + x % WORD && y == y / WORD * WORD + y % WORD;
    assert y - x == (y / WORD - x / WORD) * WORD + (y % WORD - x % WORD);
    ModuloOf(y / WORD - x / WORD, y % WORD - x % WORD);
  }

  lemma ModuloOf(q: int, r: int)
    ensures (q * WORD + r) % WORD == r % WORD
  {
  }

  /** The loop never ends before `num` shots were fired; when it ends, at most `num + d - 1` were. */
  lemma {:induction false} EnoughShots(totals: seq<nat>, num: nat, d: nat, k: nat)
    requires Advances(totals, d) && num > 0 && num + d <= 4294967296 && 0 < k < |totals|
    requires Counted(totals, k) >= num && forall j :: 0 < j < k ==> Counted(totals, j) < num
    ensures totals[0] <= totals[k] && num <= Fired(totals, k) <= num + d - 1
  {
    CountedIsFired(totals, d, k);
    FewShotsBefore(totals, num, d, k - 1);
    assert totals[k - 1] <= totals[k - 1 + 1] <= totals[k - 1] + d;
  }

  lemma {:induction false} FewShotsBefore(totals: seq<nat>, num: nat, d: nat, k: nat)
    requires Advances(totals, d) && num > 0 && num + d <= 4294967296 && k < |totals|
    requires forall j :: 0 < j <= k ==> Counted(totals, j) < num
    ensures totals[0] <= totals[k] && Fired(totals, k) < num
  {
    CountedIsFired(totals, d, k);
    if k > 0 {
      FewShotsBefore(totals, num, d, k - 1);
      assert totals[k - 1] <= totals[k - 1 + 1] <= totals[k - 1] + d;
    }
  }

  /** Once `num` shots were fired the loop has ended. */
  predicate InTime(totals: seq<nat>, num: nat)
    requires totals != []
  {
    forall k :: 0 < k < |totals| && totals[k] >= totals[0] + num ==> Ended(totals, num, k)
  }

  /** Shot by shot up to one less than `num`, then past 2^32 in one step. */
  function Overrun(num: nat): (r: seq<nat>)
    requires num > 0
    ensures |r| == num + 1
  {
    seq(num + 1, k => if k < num then k else WORD)
  }

  /** The loop is in time for every way the shots may come, exactly when `num + d` fits 2^32. */
  lemma InTimeExactlyWhenItFits(num: nat, d: nat)
    requires 0 < num < 4294967296 && d > 0
    ensures (forall totals :: Advances(totals, d) ==> InTime(totals, num)) <==> num + d <= 4294967296
  {
    if num + d <= WORD {
      forall totals, k | Advances(totals, d) && 0 < k < |totals| && totals[k] >= totals[0] + num
        ensures Ended(totals, num, k)
      {
        if !Ended(totals, num, k) {
          FewShotsBefore(totals, num, d, k);
        }
      }
    } else {
      var totals := Overrun(num);
      assert Advances(totals, d);
      assert totals[num] == WORD >= totals[0] + num;
      assert Counted(totals, num) == 0;
      assert !Ended(totals, num, num);
      assert !InTime(totals, num);
    }
  }
}
