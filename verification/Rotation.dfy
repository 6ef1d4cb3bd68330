/** The signer-rotation detector against its specification over the whole observation history. */
module SignerRotation {
  import opened Primitives

  type Address = nat

  const U32_MAX: nat := 0xFFFF_FFFF

  datatype Rotation = Rotation(baseline: Address, observed: Address)

  /** The successful reads of a history, oldest first. */
  function Reads(history: seq<Option<Address>>): seq<Address> {
    if history == [] then []
    else Reads(history[..|history| - 1]) +
         if history[|history| - 1].Some? then [history[|history| - 1].value] else []
  }

  /** How many reads at the end of `vs` agree with the last one. */
  function Streak(vs: seq<Address>): (n: nat)
    ensures n <= |vs| && (vs != [] ==> n > 0)
    ensures forall i :: |vs| - n <= i < |vs| ==> vs[i] == vs[|vs| - 1]
    ensures n < |vs| ==> vs[|vs| - 1 - n] != vs[|vs| - 1]
  {
    if |vs| <= 1 then |vs|
    else if vs[|vs| - 2] != vs[|vs| - 1] then 1
    else 1 + Streak(vs[..|vs| - 1])
  }

  /** The last `confirmations` successful reads are all one address, different from the first. */
  ghost predicate Confirmed(vs: seq<Address>, confirmations: nat) {
    && 0 < confirmations <= |vs|
    && vs[|vs| - 1] != vs[0]
    && forall i :: |vs| - confirmations <= i < |vs| ==> vs[i] == vs[|vs| - 1]
  }

  lemma ConfirmedByStreak(vs: seq<Address>, confirmations: nat)
    requires 0 < confirmations
    ensures Confirmed(vs, confirmations) <==>
            vs != [] && vs[|vs| - 1] != vs[0] && confirmations <= Streak(vs)
  {
    var n := Streak(vs);
    assert n < |vs| ==> vs[|vs| - 1 - n] != vs[|vs| - 1];
  }

  lemma StreakGrows(vs: seq<Address>, v: Address)
    ensures Streak(vs + [v]) == if vs != [] && vs[|vs| - 1] == v then Streak(vs) + 1 else 1
  {
    assert (vs + [v])[..|vs|] == vs;
  }

  /** The detector's fields as a value. */
  datatype Summary = Summary(baseline: Option<Address>, candidate: Option<Address>, streak: nat)

  /** The fields summarise the successful reads; the counter saturates. */
  ghost predicate Summarises(s: Summary, vs: seq<Address>) {
    && s.baseline == (if vs == [] then None else Some(vs[0]))
    && (vs == [] || vs[|vs| - 1] == vs[0] ==> s.candidate == None && s.streak == 0)
    && (vs != [] && vs[|vs| - 1] != vs[0] ==>
          s.candidate == Some(vs[|vs| - 1]) && s.streak == Min(Streak(vs), U32_MAX))
  }

  /** The fields after one more successful read. */
  function AfterRead(s: Summary, v: Address): Summary {
    if s.baseline.None? then s.(baseline := Some(v))
    else if v == s.baseline.value then s.(candidate := None, streak := 0)
    else if s.candidate == Some(v) then s.(streak := Min(s.streak + 1, U32_MAX))
    else s.(candidate := Some(v), streak := 1)
  }

  lemma ReadsGrow(history: seq<Option<Address>>, value: Option<Address>)
    ensures value.None? ==> Reads(history + [value]) == Reads(history)
    ensures value.Some? ==> Reads(history + [value]) == Reads(history) + [value.value]
  {
    assert (history + [value])[..|history|] == history;
  }

  lemma ReadSummarises(s: Summary, vs: seq<Address>, v: Address)
    requires Summarises(s, vs)
    ensures Summarises(AfterRead(s, v), vs + [v])
  {
    StreakGrows(vs, v);
  }

  /** The counter, saturated or not, tells whether the rotation is confirmed. */
  lemma CounterConfirms(s: Summary, vs: seq<Address>, confirmations: nat)
    requires Summarises(s, vs) && vs != [] && 0 < confirmations <= U32_MAX
    ensures Confirmed(vs, confirmations) <==> vs[|vs| - 1] != vs[0] && confirmations <= s.streak
  {
    ConfirmedByStreak(vs, confirmations);
  }

  class RotationDetector {
    const confirmations: nat
    var baseline: Option<Address>
    var candidate: Option<Address>
    var streak: nat
    ghost var history: seq<Option<Address>>

    ghost predicate Valid()
      reads this
    {
      0 < confirmations <= U32_MAX && Summarises(Summary(baseline, candidate, streak), Reads(history))
    }

    constructor (confirmations: nat)
      requires 0 < confirmations <= U32_MAX
      ensures Valid() && history == [] && this.confirmations == confirmations
    {
      this.confirmations := confirmations;
      baseline, candidate, streak, history := None, None, 0, [];
    }

    /** Fires exactly when this read completes a confirmed rotation in the whole history. */
    method Observe(value: Option<Address>) returns (rotation: Option<Rotation>)
      requires Valid()
      modifies this
      ensures Valid() && history == old(history) + [value]
      ensures rotation.Some? <==> value.Some? && Confirmed(Reads(history), confirmations)
      ensures rotation.Some? ==> rotation.value == Rotation(Reads(history)[0], value.value)
    {
      history := history + [value];
      ReadsGrow(old(history), value);
      if value.None? {
        return None;
      }
      var v := value.value;
      ghost var s, vs := Summary(baseline, candidate, streak), Reads(old(history));
      ReadSummarises(s, vs, v);
      CounterConfirms(AfterRead(s, v), vs + [v], confirmations);
      if baseline.None? {
        baseline := Some(v);
        return None;
      }
      if v == baseline.value {
        candidate, streak := None, 0;
        return None;
      }
      if candidate == Some(v) {
        streak := Min(streak + 1, U32_MAX);
      } else {
        candidate, streak := Some(v), 1;
      }
      return if streak >= confirmations then Some(Rotation(baseline.value, v)) else None;
    }
  }
}
