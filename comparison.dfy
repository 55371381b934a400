/** The term comparison of the comparison dialog
    (src/components/contracts/ContractComparison.tsx): each key term of two
    contract versions is classified as neutral, changed, an improvement or a
    concern, according to the direction in which that term is better. */
module Comparison {
  import opened Text
  import opened Domain

  /** Which way a term is better: `betterWhen`, whose default is 'neutral'. */
  datatype Direction = Higher | Lower | NeutralDirection

  /** `getChangeType(previous, current, betterWhen)`: the early returns of lines
      65-79, with `parseFloat` reading the leading number and `None` for `NaN`. */
  function ChangeTypeOf(previous: Option<string>, current: Option<string>, betterWhen: Direction): ChangeType
  {
    if previous == current then Neutral
    else if Falsy(previous) || Falsy(current) then Neutral
    else
      var oldNum := ParseFloat(previous.value);
      var newNum := ParseFloat(current.value);
      if oldNum.None? || newNum.None? then Changed
      else match betterWhen
        case Higher => if newNum.value > oldNum.value then Improvement else Concern
        case Lower => if newNum.value < oldNum.value then Improvement else Concern
        case NeutralDirection => Neutral
  }

  /** Two present, non-empty, different values whose leading numbers both parse. */
  predicate BothNumeric(previous: Option<string>, current: Option<string>)
  {
    && !Falsy(previous) && !Falsy(current) && previous != current
    && ParseFloat(previous.value).Some? && ParseFloat(current.value).Some?
  }

  /** Equal values, or a missing or empty one, are never a change. */
  lemma NeutralCases(previous: Option<string>, current: Option<string>, betterWhen: Direction)
    ensures previous == current ==> ChangeTypeOf(previous, current, betterWhen) == Neutral
    ensures Falsy(previous) || Falsy(current) ==> ChangeTypeOf(previous, current, betterWhen) == Neutral
  {
  }

  /** "changed" is exactly the case of two different, present values one of
      which does not start with a number, whatever the direction. */
  lemma ChangedIff(previous: Option<string>, current: Option<string>, betterWhen: Direction)
    ensures ChangeTypeOf(previous, current, betterWhen) == Changed <==>
      && !Falsy(previous) && !Falsy(current) && previous != current
      && (ParseFloat(previous.value).None? || ParseFloat(current.value).None?)
  {
  }

  /** Direction "higher": an improvement exactly when the new number is larger,
      and a concern for any other pair of different numeric values. */
  lemma HigherRule(previous: Option<string>, current: Option<string>)
    requires BothNumeric(previous, current)
    ensures ChangeTypeOf(previous, current, Higher) == Improvement <==>
      ParseFloat(current.value).value > ParseFloat(previous.value).value
    ensures ChangeTypeOf(previous, current, Higher) == Concern <==>
      ParseFloat(current.value).value <= ParseFloat(previous.value).value
  {
  }

  /** Direction "lower": an improvement exactly when the new number is smaller. */
  lemma LowerRule(previous: Option<string>, current: Option<string>)
    requires BothNumeric(previous, current)
    ensures ChangeTypeOf(previous, current, Lower) == Improvement <==>
      ParseFloat(current.value).value < ParseFloat(previous.value).value
    ensures ChangeTypeOf(previous, current, Lower) == Concern <==>
      ParseFloat(current.value).value >= ParseFloat(previous.value).value
  {
  }

  /** With the default direction a term is never rated better or worse. */
  lemma DefaultDirectionNeverRates(previous: Option<string>, current: Option<string>)
    ensures ChangeTypeOf(previous, current, NeutralDirection) in {Neutral, Changed}
  {
  }

  /** Two texts with the same leading number but different wording are a
      concern in either rated direction, e.g. "10%" against "10 %". */
  lemma SameNumberIsConcern(previous: Option<string>, current: Option<string>, betterWhen: Direction)
    requires BothNumeric(previous, current)
    requires ParseFloat(previous.value) == ParseFloat(current.value)
    requires betterWhen != NeutralDirection
    ensures ChangeTypeOf(previous, current, betterWhen) == Concern
  {
  }

  /** Turns an improvement into a concern and back. */
  function Flip(c: ChangeType): ChangeType
  {
    match c
    case Improvement => Concern
    case Concern => Improvement
    case other => other
  }

  /** Reading the comparison backwards swaps improvement and concern when the
      two numbers differ, and leaves every other outcome as it is. */
  lemma SwapFlips(previous: Option<string>, current: Option<string>, betterWhen: Direction)
    requires betterWhen != NeutralDirection && BothNumeric(previous, current) ==>
      ParseFloat(previous.value) != ParseFloat(current.value)
    ensures ChangeTypeOf(current, previous, betterWhen) == Flip(ChangeTypeOf(previous, current, betterWhen))
  {
  }

  /** A comparison with itself is neutral. */
  lemma ChangeTypeReflexive(v: Option<string>, betterWhen: Direction)
    ensures ChangeTypeOf(v, v, betterWhen) == Neutral
  {
  }

  // ---------------------------------------------------------------------
  // The change table of `handleCompare`

  /** One row of the table: the previous and current value and their change. */
  datatype FieldChange = FieldChange(previous: Option<string>, current: Option<string>, change: ChangeType)

  datatype ChangeTable = ChangeTable(
    margin: FieldChange,
    paymentTerms: FieldChange,
    slaTime: FieldChange,
    territory: FieldChange,
    exclusivity: FieldChange,
    warrantyPeriod: FieldChange)

  function Rated(previous: Option<string>, current: Option<string>, betterWhen: Direction): FieldChange
  {
    FieldChange(previous, current, ChangeTypeOf(previous, current, betterWhen))
  }

  /** `exclusivity ? 'Yes' : 'No'`: null and false both show "No". */
  function YesNo(flag: Option<bool>): string
  {
    if flag == Some(true) then "Yes" else "No"
  }

  /** The table of lines 27-58 for an older and a newer version. */
  function Compare(older: ContractRow, newer: ContractRow): ChangeTable
  {
    ChangeTable(
      margin := Rated(older.margin, newer.margin, Higher),
      paymentTerms := Rated(older.paymentTerms, newer.paymentTerms, NeutralDirection),
      slaTime := Rated(older.slaTime, newer.slaTime, Lower),
      territory := Rated(older.territory, newer.territory, NeutralDirection),
      exclusivity := FieldChange(Some(YesNo(older.exclusivity)), Some(YesNo(newer.exclusivity)),
                                 if older.exclusivity == newer.exclusivity then Neutral else Changed),
      warrantyPeriod := Rated(older.warrantyPeriod, newer.warrantyPeriod, Higher))
  }

  /** `handleCompare`: nothing unless exactly two contracts are selected, the
      first taken as the older version. */
  function HandleCompare(selected: seq<ContractRow>): (r: Option<ChangeTable>)
    ensures r.Some? <==> |selected| == 2
  {
    if |selected| != 2 then None else Some(Compare(selected[0], selected[1]))
  }

  function Changes(t: ChangeTable): seq<ChangeType>
  {
    [t.margin.change, t.paymentTerms.change, t.slaTime.change,
     t.territory.change, t.exclusivity.change, t.warrantyPeriod.change]
  }

  /** Comparing a contract with itself shows no change in any row. */
  lemma CompareSelf(c: ContractRow)
    ensures forall i :: 0 <= i < |Changes(Compare(c, c))| ==> Changes(Compare(c, c))[i] == Neutral
  {
    ChangeTypeReflexive(c.margin, Higher);
    ChangeTypeReflexive(c.paymentTerms, NeutralDirection);
    ChangeTypeReflexive(c.slaTime, Lower);
    ChangeTypeReflexive(c.territory, NeutralDirection);
    ChangeTypeReflexive(c.warrantyPeriod, Higher);
  }

  /** Only margin, SLA time and warranty period can be rated; payment terms,
      territory and exclusivity are at most "changed". */
  lemma RatedRows(older: ContractRow, newer: ContractRow)
    ensures var t := Compare(older, newer);
            && t.paymentTerms.change in {Neutral, Changed}
            && t.territory.change in {Neutral, Changed}
            && t.exclusivity.change in {Neutral, Changed}
    ensures var t := Compare(older, newer);
            t.exclusivity.change == Neutral <==> older.exclusivity == newer.exclusivity
  {
    DefaultDirectionNeverRates(older.paymentTerms, newer.paymentTerms);
    DefaultDirectionNeverRates(older.territory, newer.territory);
  }

  /** Swapping the two versions flips every rated row whose numbers differ,
      and keeps the change of every other row. */
  lemma CompareSwap(older: ContractRow, newer: ContractRow)
    requires BothNumeric(older.margin, newer.margin) ==>
      ParseFloat(older.margin.value) != ParseFloat(newer.margin.value)
    requires BothNumeric(older.slaTime, newer.slaTime) ==>
      ParseFloat(older.slaTime.value) != ParseFloat(newer.slaTime.value)
    requires BothNumeric(older.warrantyPeriod, newer.warrantyPeriod) ==>
      ParseFloat(older.warrantyPeriod.value) != ParseFloat(newer.warrantyPeriod.value)
    ensures var t, u := Compare(older, newer), Compare(newer, older);
            forall i :: 0 <= i < 6 ==> Changes(u)[i] == Flip(Changes(t)[i])
  {
    SwapFlips(older.margin, newer.margin, Higher);
    SwapFlips(older.paymentTerms, newer.paymentTerms, NeutralDirection);
    SwapFlips(older.slaTime, newer.slaTime, Lower);
    SwapFlips(older.territory, newer.territory, NeutralDirection);
    SwapFlips(older.warrantyPeriod, newer.warrantyPeriod, Higher);
  }

  /** Two different terms that both start with a digit are neutral under the
      default direction, however far apart their numbers are. */
  lemma DefaultDirectionNumeric(previous: string, current: string)
    requires previous != [] && IsDigit(previous[0])
    requires current != [] && IsDigit(current[0])
    ensures ChangeTypeOf(Some(previous), Some(current), NeutralDirection) == Neutral
  {
    ParseFloatOfDigitStart(previous);
    ParseFloatOfDigitStart(current);
  }

  /** Hence a shortened payment period is not rated: "60 days" to "30 days" is neutral. */
  lemma PaymentShorteningIsNeutral()
    ensures ChangeTypeOf(Some("60 days"), Some("30 days"), NeutralDirection) == Neutral
  {
    DefaultDirectionNumeric("60 days", "30 days");
  }
}
