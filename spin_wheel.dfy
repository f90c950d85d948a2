/** The wheel of components/SpinWheel.tsx: which categories the wheel may land
    on, the integer rotation that brings the winner under the pointer, the
    spin/settle/pick sequence, and the rule that disables a difficulty button. */
module SpinWheel {
  import opened Util
  import opened Pools
  import opened Bank
  import opened Session
  import opened SessionRoute
  import opened QuizSessionHook
  import opened QuestionsRoute
  import opened QuizApp

  /** The six segments, in wheel order. */
  const CATEGORIES: seq<string> := ["Bahasa Indonesia", "English", "Matematika", "PAI", "IT", "IPA"]

  /** The three difficulty buttons, in order. */
  const DIFFS: seq<string> := ["Receh", "Sedang", "Sulit"]

  /** Degrees per segment: 360 / 6. */
  const SEG: int := 60

  /** `usedQuestions[cat]?.[diff]?.length ?? 0` */
  function UsedCount(used: UsedQuestions, category: string, difficulty: string): int {
    |Slot(used, category, difficulty)|
  }

  // ---------------------------------------------------------------------------
  // Eligibility
  // ---------------------------------------------------------------------------

  /** One difficulty still counts for the wheel: its size is 0 (read as "no data
      yet") or not every question has been used. */
  predicate TierOpen(sizes: Table, used: UsedQuestions, category: string, difficulty: string) {
    SizeOf(sizes, category, difficulty) == 0 || UsedCount(used, category, difficulty) < SizeOf(sizes, category, difficulty)
  }

  /** `categoryHasQuestions`: a category without a size table is assumed to have
      questions; otherwise some difficulty must still be open. */
  predicate CategoryHasQuestions(sizes: Table, used: UsedQuestions, category: string) {
    category !in sizes || exists i :: 0 <= i < |DIFFS| && TierOpen(sizes, used, category, DIFFS[i])
  }

  /** The indices among the first `k` segments whose category has questions, in order. */
  function EligibleUpTo(sizes: Table, used: UsedQuestions, k: nat): (r: seq<int>)
    requires k <= |CATEGORIES|
    ensures forall i :: i in r <==> 0 <= i < k && CategoryHasQuestions(sizes, used, CATEGORIES[i])
    ensures forall i :: 0 <= i < |r| ==> 0 <= r[i] < k
  {
    if k == 0 then []
    else if CategoryHasQuestions(sizes, used, CATEGORIES[k - 1]) then EligibleUpTo(sizes, used, k - 1) + [k - 1]
    else EligibleUpTo(sizes, used, k - 1)
  }

  /** The segments the wheel draws from: the eligible ones, or all six when none is. */
  function SpinPool(sizes: Table, used: UsedQuestions): (r: seq<int>)
    ensures r != []
    ensures forall i :: 0 <= i < |r| ==> 0 <= r[i] < |CATEGORIES|
    ensures (exists i :: 0 <= i < |CATEGORIES| && CategoryHasQuestions(sizes, used, CATEGORIES[i])) ==>
              forall i :: 0 <= i < |CATEGORIES| ==> (i in r <==> CategoryHasQuestions(sizes, used, CATEGORIES[i]))
  {
    var eligible := EligibleUpTo(sizes, used, |CATEGORIES|);
    if eligible != [] then eligible
    else Range(|CATEGORIES|)
  }

  /** The segment a spin lands on, for the first Math.random() value: a real
      segment, and an eligible one whenever any is. */
  function Winner(sizes: Table, used: UsedQuestions, rand: real): (w: int)
    requires 0.0 <= rand < 1.0
    ensures 0 <= w < |CATEGORIES|
    ensures (exists i :: 0 <= i < |CATEGORIES| && CategoryHasQuestions(sizes, used, CATEGORIES[i])) ==>
              CategoryHasQuestions(sizes, used, CATEGORIES[w])
  {
    var pool := SpinPool(sizes, used);
    assert pool[RandomIndex(rand, |pool|)] in pool;
    pool[RandomIndex(rand, |pool|)]
  }

  /** Every segment the spin may land on is reached by some Math.random() value. */
  lemma EverySegmentReachable(sizes: Table, used: UsedQuestions, w: int)
    requires w in SpinPool(sizes, used)
    ensures exists rand: real :: 0.0 <= rand < 1.0 && Winner(sizes, used, rand) == w
  {
    var pool := SpinPool(sizes, used);
    var k :| 0 <= k < |pool| && pool[k] == w;
    RandomIndexReaches(k, |pool|);
    assert Winner(sizes, used, k as real / |pool| as real) == w;
  }

  /** Before the bank has loaded every category is eligible. */
  lemma AllEligibleBeforeLoad(used: UsedQuestions, category: string)
    ensures CategoryHasQuestions(map[], used, category)
  {
  }

  // ---------------------------------------------------------------------------
  // Rotation
  // ---------------------------------------------------------------------------

  /** The full turns added by a spin, for the second Math.random() value: 5 to 8 turns. */
  function ExtraTurns(rand: real): (e: int)
    requires 0.0 <= rand < 1.0
    ensures 1800 <= e <= 2880 && e % 360 == 0
  {
    (5 + RandomIndex(rand, 4)) * 360
  }

  /** `360 - (winner * seg + seg / 2)`: the angle that brings the winner's segment centre to the top. */
  function Target(winner: int): int {
    360 - (winner * SEG + SEG / 2)
  }

  /** `rotRef.current + extra + target - (rotRef.current % 360)` */
  function NextRotation(rotation: int, winner: int, extra: int): (r: int)
    ensures 0 <= winner < |CATEGORIES| && extra >= 360 ==> r > rotation
    ensures 0 <= winner < |CATEGORIES| && rotation >= 0 && extra % 360 == 0 ==> r % 360 == Target(winner)
  {
    var r := rotation + extra + Target(winner) - JsRem(rotation, 360);
    assert rotation >= 0 && extra % 360 == 0 ==> r == (rotation / 360 + extra / 360) * 360 + Target(winner);
    r
  }

  /** A spin always turns the wheel forward, and from a non-negative rotation it
      stops with `total mod 360 = 330 - 60 * winner`, so the winner's segment
      centre (at 60 * winner + 30 degrees on the wheel) sits under the pointer. */
  lemma SpinLands(rotation: int, winner: int, rand: real)
    requires 0 <= winner < |CATEGORIES| && 0.0 <= rand < 1.0
    ensures NextRotation(rotation, winner, ExtraTurns(rand)) > rotation
    ensures rotation >= 0 ==>
              var total := NextRotation(rotation, winner, ExtraTurns(rand));
              && total % 360 == 330 - 60 * winner
              && (winner * SEG + SEG / 2 + total) % 360 == 0
  {
    var extra := ExtraTurns(rand);
    var total := NextRotation(rotation, winner, extra);
    if rotation >= 0 {
      var turns := rotation / 360 + extra / 360;
      assert total == turns * 360 + (330 - 60 * winner);
      assert winner * SEG + SEG / 2 + total == (turns + 1) * 360;
    }
  }

  // ---------------------------------------------------------------------------
  // The wheel component
  // ---------------------------------------------------------------------------

  /** The wheel's state: the rotation (`rotRef.current`, also rendered), whether
      it is spinning, the segment shown as selected, and the winner the
      pending timeout will reveal. */
  class Wheel {
    var rotation: int
    var isSpinning: bool
    var selectedIdx: Option<int>
    var pending: Option<int>

    /** A selection and a pending winner are always real segments, and the
        winner is pending exactly while the wheel spins. */
    predicate Valid()
      reads this
    {
      && rotation >= 0
      && (selectedIdx.Some? ==> 0 <= selectedIdx.value < |CATEGORIES|)
      && (pending.Some? ==> 0 <= pending.value < |CATEGORIES|)
      && (isSpinning <==> pending.Some?)
    }

    constructor()
      ensures Valid() && rotation == 0 && !isSpinning && selectedIdx == None
    {
      rotation := 0;
      isSpinning := false;
      selectedIdx := None;
      pending := None;
    }

    /** `spin`: ignored while spinning; otherwise clear the selection, choose
        the winner and turn the wheel. */
    method Spin(sizes: Table, used: UsedQuestions, rand1: real, rand2: real)
      requires Valid() && 0.0 <= rand1 < 1.0 && 0.0 <= rand2 < 1.0
      modifies this
      ensures Valid()
      ensures old(isSpinning) ==> rotation == old(rotation) && isSpinning && selectedIdx == old(selectedIdx)
                                  && pending == old(pending)
      ensures !old(isSpinning) ==>
                && isSpinning && selectedIdx == None
                && pending == Some(Winner(sizes, used, rand1))
                && rotation == NextRotation(old(rotation), Winner(sizes, used, rand1), ExtraTurns(rand2))
    {
      if isSpinning {
        return;
      }
      isSpinning := true;
      selectedIdx := None;
      var winner := Winner(sizes, used, rand1);
      SpinLands(rotation, winner, rand2);
      rotation := NextRotation(rotation, winner, ExtraTurns(rand2));
      pending := Some(winner);
    }

    /** The spin's timeout: stop spinning and show the winner. */
    method Settle()
      requires Valid()
      modifies this
      ensures Valid() && !isSpinning && pending == None && rotation == old(rotation)
      ensures old(pending).Some? ==> selectedIdx == old(pending)
      ensures old(pending).None? ==> selectedIdx == old(selectedIdx)
    {
      if pending.Some? {
        selectedIdx := pending;
      }
      isSpinning := false;
      pending := None;
    }

    /** `pickDiff`: the (category, difficulty) handed to the quiz, or nothing
        when no segment is selected. */
    method PickDiff(difficulty: string) returns (picked: Option<(string, string)>)
      requires Valid()
      ensures selectedIdx.None? ==> picked == None
      ensures selectedIdx.Some? ==> picked == Some((CATEGORIES[selectedIdx.value], difficulty))
    {
      if selectedIdx.None? {
        return None;
      }
      picked := Some((CATEGORIES[selectedIdx.value], difficulty));
    }
  }

  // ---------------------------------------------------------------------------
  // Difficulty buttons
  // ---------------------------------------------------------------------------

  datatype Button = Enabled | Disabled(caption: string)

  /** The button for one difficulty of the selected category: disabled when its
      pool is used up, or when the sizes are known and it has no pool. */
  function DifficultyButton(sizes: Table, used: UsedQuestions, category: string, difficulty: string): (b: Button)
    ensures b.Disabled? <==>
              (SizeOf(sizes, category, difficulty) > 0 && UsedCount(used, category, difficulty) >= SizeOf(sizes, category, difficulty))
              || (SizeOf(sizes, category, difficulty) == 0 && |sizes| > 0)
    ensures b.Disabled? ==> b.caption in {"Tidak ada soal", "Semua terpakai"}
  {
    var total := SizeOf(sizes, category, difficulty);
    var exhausted := total > 0 && UsedCount(used, category, difficulty) >= total;
    var noPool := total == 0 && |sizes| > 0;
    if exhausted || noPool then Disabled(if noPool then "Tidak ada soal" else "Semua terpakai") else Enabled
  }

  /** With the sizes built from the bank, a difficulty whose pool exists and
      whose slot holds distinct pool indices has its button enabled exactly
      when the client draw can still pick from it. */
  lemma ButtonMatchesDraw(bank: QuestionBank, session: SessionPayload, category: string, difficulty: string,
                          rand: real)
    requires 0.0 <= rand < 1.0
    requires Lookup(bank, category, difficulty).Some? && Lookup(bank, category, difficulty).value != []
    requires var used := Slot(session.usedQuestions, category, difficulty);
             NoDup(used) && forall i :: 0 <= i < |used| ==> 0 <= used[i] < |Lookup(bank, category, difficulty).value|
    ensures DifficultyButton(PoolSizes(bank), session.usedQuestions, category, difficulty).Enabled?
            <==> ClientSelect(Some(bank), session, category, difficulty, rand).Some?
  {
    var n := |Lookup(bank, category, difficulty).value|;
    var used := Slot(session.usedQuestions, category, difficulty);
    UnservedCount(n, used);
    assert SizeOf(PoolSizes(bank), category, difficulty) == n;
  }

  /** A missing difficulty says "no questions", a used-up one "all used". */
  lemma ButtonLabels(sizes: Table, used: UsedQuestions, category: string, difficulty: string)
    ensures SizeOf(sizes, category, difficulty) == 0 && |sizes| > 0 ==>
              DifficultyButton(sizes, used, category, difficulty) == Disabled("Tidak ada soal")
    ensures SizeOf(sizes, category, difficulty) > 0 && UsedCount(used, category, difficulty) >= SizeOf(sizes, category, difficulty) ==>
              DifficultyButton(sizes, used, category, difficulty) == Disabled("Semua terpakai")
    ensures sizes == map[] ==> DifficultyButton(sizes, used, category, difficulty) == Enabled
  {
  }

  /** A category with an enabled button (of a size that is not negative, as
      every size built from a bank is) is eligible for the wheel. */
  lemma EnabledMeansEligible(sizes: Table, used: UsedQuestions, category: string, i: int)
    requires 0 <= i < |DIFFS| && DifficultyButton(sizes, used, category, DIFFS[i]).Enabled?
    requires SizeOf(sizes, category, DIFFS[i]) >= 0
    ensures CategoryHasQuestions(sizes, used, category)
  {
    if category in sizes {
      assert category in sizes.Keys;
      assert TierOpen(sizes, used, category, DIFFS[i]);
    }
  }

  /** The converse fails: a category whose only pool is used up, and which has
      no pool for the other two difficulties, stays eligible (a size of 0 reads
      as "no data yet") while all three of its buttons are disabled. */
  lemma EligibleWithEveryButtonDisabled()
    ensures var sizes: Table := map["IPA" := map["Receh" := 1]];
            var used: UsedQuestions := map["IPA" := map["Receh" := [0]]];
            && CategoryHasQuestions(sizes, used, "IPA")
            && forall i :: 0 <= i < |DIFFS| ==> DifficultyButton(sizes, used, "IPA", DIFFS[i]).Disabled?
  {
    var sizes: Table := map["IPA" := map["Receh" := 1]];
    var used: UsedQuestions := map["IPA" := map["Receh" := [0]]];
    assert TierOpen(sizes, used, "IPA", DIFFS[1]);
  }
}
