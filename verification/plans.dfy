/** The plan resolver: from the price id of a subscription's first item to a plan tag. */
module Plans {
  import opened Optional

  const MonthlyPriceId: string := "price_1Sjggy4KmkIrfz5IKZYTeD92"
  const YearlyPriceId: string := "price_1Sjgiu4KmkIrfz5I9Agqw9N6"

  datatype Plan = Monthly | Yearly

  /** The tag stored in `plan` and `premiumPlan` fields. */
  function Name(p: Plan): (s: string)
    ensures s == "monthly" <==> p == Monthly
    ensures s == "yearly" <==> p == Yearly
  {
    match p
    case Monthly => "monthly"
    case Yearly => "yearly"
  }

  /** `determinePlanType`: the yearly price id gives the yearly plan; the monthly
      price id, any other id and a missing id all give the monthly plan. */
  function DeterminePlanType(priceId: Option<string>): (p: Plan)
    ensures p == Yearly <==> priceId == Some(YearlyPriceId)
    ensures priceId == Some(MonthlyPriceId) ==> p == Monthly
  {
    if priceId == Some(MonthlyPriceId) then Monthly
    else if priceId == Some(YearlyPriceId) then Yearly
    else Monthly
  }
}
