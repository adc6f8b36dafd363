/**
 * The subscription plans the bot sells: their command names, their lengths in
 * days and their advertised prices (in euro cents).
 */
module Plans {
  import opened Wrappers
  import opened Text

  /** Seconds in one day; timestamps are whole seconds. */
  const DAY: nat := 86400

  datatype Plan = Basico | Combinada | Mensual

  /** The name an admin types after `/verificar <user>`. */
  function PlanName(p: Plan): (name: string)
    ensures Lower(name) == name
  {
    match p
    case Basico => "basico"
    case Combinada => "combinada"
    case Mensual => "mensual"
  }

  /** Days of access a plan buys. */
  function Days(p: Plan): (d: nat)
    ensures 7 <= d <= 30
  {
    match p
    case Basico => 7
    case Combinada => 15
    case Mensual => 30
  }

  /** Price of a plan in euro cents, as used by the revenue estimate. */
  function PriceCents(p: Plan): (c: nat)
    ensures 399 <= c <= 2999
  {
    match p
    case Basico => 399
    case Combinada => 799
    case Mensual => 2999
  }

  /**
   * Estimated revenue in cents from the number of users whose last plan was
   * each plan: each user contributes the price of one plan.
   */
  function EstimatedRevenue(basic: nat, combined: nat, monthly: nat): (r: nat)
    ensures r <= PriceCents(Mensual) * (basic + combined + monthly)
    ensures r >= PriceCents(Basico) * (basic + combined + monthly)
  {
    basic * PriceCents(Basico) + combined * PriceCents(Combinada) + monthly * PriceCents(Mensual)
  }

  /** Looks a typed plan name up after lower-casing it; None for any other name. */
  function ParsePlan(s: string): (r: Option<Plan>)
    ensures r.Some? ==> PlanName(r.value) == Lower(s)
    ensures r.None? ==> forall p: Plan :: PlanName(p) != Lower(s)
  {
    var name := Lower(s);
    if name == "basico" then Some(Basico)
    else if name == "combinada" then Some(Combinada)
    else if name == "mensual" then Some(Mensual)
    else None
  }

  /** Plan names are their own lower-case form, so each name parses back to its plan. */
  lemma ParsePlanName(p: Plan)
    ensures ParsePlan(PlanName(p)) == Some(p)
  {
  }

  /** Parsing ignores case: a name and its lower-case form parse alike. */
  lemma ParsePlanIgnoresCase(s: string)
    ensures ParsePlan(s) == ParsePlan(Lower(s))
  {
  }
}
