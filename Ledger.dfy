/**
 * The entitlement ledger as values: the records the bot keeps in its three
 * collections (users, tips, purchases) and the rules its command handlers apply
 * to them — who counts as an active subscriber, how a verified payment moves a
 * subscription's end, how `/estado` classifies a user, how `/stats` counts, and
 * how tip and purchase keys are formed.
 *
 * Timestamps are whole seconds; the handlers' clock reads become one `now`.
 */
module Ledger {
  import opened Wrappers
  import opened Text
  import opened Plans

  datatype User = User(
    username: Option<string>,
    firstName: Option<string>,
    subscriptionEnd: Option<int>,   // None: never subscribed
    referrals: int,
    createdAt: int,
    lastPlan: Option<string>)       // read by the revenue estimate only

  datatype Tip = Tip(cuota: string, precio: string, descripcion: string, createdAt: int)

  datatype Purchase = Purchase(userId: string, tipId: string, purchasedAt: int)

  /** The replies a handler gives instead of doing its work. */
  datatype Error = NotAdmin | Usage | InvalidPlan | TipNotFound | AlreadyPurchased

  type Users = map<string, User>
  type Tips = map<string, Tip>
  type Purchases = map<string, Purchase>

  /** A record as `/start` or `/verificar` creates it. */
  function NewUser(username: Option<string>, firstName: Option<string>, now: int): (u: User)
    ensures forall t :: !IsActive(u.subscriptionEnd, t)
    ensures u.lastPlan == None && u.referrals == 0
    ensures u.username == username && u.firstName == firstName && u.createdAt == now
  {
    User(username, firstName, None, 0, now, None)
  }

  // ---------------------------------------------------------------------------
  // Activity

  /**
   * A subscription is active iff it has an end and that end is strictly after
   * now: in whole seconds, up to and including the second before the end.
   */
  function IsActive(end: Option<int>, now: int): (b: bool)
    // The first two clauses follow from the third; they spell out the boundary cases.
    ensures end.None? ==> !b
    ensures end == Some(now) ==> !b
    ensures b <==> end.Some? && now <= end.value - 1
  {
    end.Some? && end.value > now
  }

  /** The users the `/stats` count and the `/enviartip` broadcast treat as active. */
  function ActiveIds(users: Users, now: int): (ids: set<string>)
    ensures ids <= users.Keys
    ensures forall u :: u in ids <==> u in users && IsActive(users[u].subscriptionEnd, now)
  {
    set u | u in users && IsActive(users[u].subscriptionEnd, now)
  }

  // ---------------------------------------------------------------------------
  // Registration (`/start`)

  /** `/start`: adds a fresh record for an unknown user, and leaves a known one alone. */
  function Register(users: Users, uid: string, username: Option<string>, firstName: Option<string>,
                    now: int): (r: Users)
    ensures uid in users ==> r == users
    ensures r.Keys == users.Keys + {uid}
    ensures forall v :: v in users ==> r[v] == users[v]
    ensures uid !in users ==> r[uid] == NewUser(username, firstName, now)
  {
    if uid in users then users else users[uid := NewUser(username, firstName, now)]
  }

  /** A second `/start` changes nothing, whatever profile and time it carries. */
  lemma RegisterIdempotent(users: Users, uid: string, n1: Option<string>, f1: Option<string>, t1: int,
                           n2: Option<string>, f2: Option<string>, t2: int)
    ensures Register(Register(users, uid, n1, f1, t1), uid, n2, f2, t2) == Register(users, uid, n1, f1, t1)
  {
  }

  /** Registration records no last plan, so it changes no per-plan count. */
  lemma RegisterKeepsPlanCounts(users: Users, uid: string, n: Option<string>, f: Option<string>, now: int,
                                name: string)
    ensures PlanIds(Register(users, uid, n, f, now), name) == PlanIds(users, name)
  {
  }

  /** Registration makes nobody active. */
  lemma RegisterKeepsActive(users: Users, uid: string, n: Option<string>, f: Option<string>, now: int, t: int)
    ensures ActiveIds(Register(users, uid, n, f, now), t) == ActiveIds(users, t)
  {
  }

  // ---------------------------------------------------------------------------
  // Subscription extension (`/verificar`)

  /**
   * The end a verified payment for plan `p` gives a subscription whose current
   * end is `current`: a running subscription is lengthened from its end, an
   * expired or absent one restarts from now.
   */
  function ExtendedEnd(current: Option<int>, p: Plan, now: int): (r: int)
    ensures r - Days(p) * DAY == (if current.Some? && current.value >= now then current.value else now)
    ensures current.Some? ==> r >= current.value + Days(p) * DAY
    ensures r >= now + 7 * DAY
    ensures IsActive(Some(r), now)
  {
    if IsActive(current, now) then current.value + Days(p) * DAY else now + Days(p) * DAY
  }

  /** A lapsed subscription is extended exactly as if the user had never subscribed. */
  lemma ExpiredExtendsLikeNew(current: Option<int>, p: Plan, now: int)
    requires !IsActive(current, now)
    ensures ExtendedEnd(current, p, now) == ExtendedEnd(None, p, now)
  {
  }

  /** After a payment the user stays active at least for the whole plan length. */
  lemma ActiveForWholePlan(current: Option<int>, p: Plan, now: int, t: int)
    requires now <= t < now + Days(p) * DAY
    ensures IsActive(Some(ExtendedEnd(current, p, now)), t)
  {
  }

  /** Two payments verified at the same instant add up, in either order. */
  lemma ExtensionsAdd(current: Option<int>, p: Plan, q: Plan, now: int)
    ensures ExtendedEnd(Some(ExtendedEnd(current, p, now)), q, now)
         == ExtendedEnd(Some(ExtendedEnd(current, q, now)), p, now)
    ensures ExtendedEnd(Some(ExtendedEnd(current, p, now)), q, now)
         == ExtendedEnd(current, p, now) + Days(q) * DAY
  {
  }

  /** Verifying a payment later never gives an earlier end. */
  lemma ExtensionMonotoneInTime(current: Option<int>, p: Plan, now1: int, now2: int)
    requires now1 <= now2
    ensures ExtendedEnd(current, p, now1) <= ExtendedEnd(current, p, now2)
  {
  }

  /**
   * A month bought at t0, a week added ten days later (stacked on the running
   * month), and a fortnight bought after the 37 days have run out (restarted).
   */
  lemma RenewalScenario(t0: int)
    ensures ExtendedEnd(None, Mensual, t0) == t0 + 30 * DAY
    ensures ExtendedEnd(Some(t0 + 30 * DAY), Basico, t0 + 10 * DAY) == t0 + 37 * DAY
    ensures ExtendedEnd(Some(t0 + 37 * DAY), Combinada, t0 + 40 * DAY) == t0 + 55 * DAY
  {
  }

  /** The current end of `uid`'s subscription, None when there is no record. */
  function CurrentEnd(users: Users, uid: string): (end: Option<int>)
    ensures end.Some? ==> uid in users
    ensures uid in users ==> end == users[uid].subscriptionEnd
  {
    if uid in users then users[uid].subscriptionEnd else None
  }

  /**
   * The users map after `/verificar uid p`: the record is created with empty
   * fields when missing, then only its subscription end moves.
   */
  function ApplyExtension(users: Users, uid: string, p: Plan, now: int): (r: Users)
    ensures r.Keys == users.Keys + {uid}
    ensures forall v :: v in users && v != uid ==> r[v] == users[v]
    ensures r[uid].subscriptionEnd == Some(ExtendedEnd(CurrentEnd(users, uid), p, now))
    ensures uid in users ==> r[uid] == users[uid].(subscriptionEnd := r[uid].subscriptionEnd)
    ensures uid !in users ==> r[uid] == NewUser(None, None, now).(subscriptionEnd := r[uid].subscriptionEnd)
  {
    var u := if uid in users then users[uid] else NewUser(None, None, now);
    users[uid := u.(subscriptionEnd := Some(ExtendedEnd(u.subscriptionEnd, p, now)))]
  }

  /** A verified payment makes exactly its user active, and nobody else changes status. */
  lemma ExtensionActivatesOnlyTarget(users: Users, uid: string, p: Plan, now: int)
    ensures ActiveIds(ApplyExtension(users, uid, p, now), now) == ActiveIds(users, now) + {uid}
  {
  }

  // ---------------------------------------------------------------------------
  // Status (`/estado`)

  datatype Status = NotRegistered | Active(end: int) | Expired(end: int) | NoSubscription

  /** The answer `/estado` gives `uid`. */
  function Classify(users: Users, uid: string, now: int): (s: Status)
    ensures s == NotRegistered <==> uid !in users
    ensures s.Active? <==> uid in ActiveIds(users, now)
    ensures s == NoSubscription <==> uid in users && users[uid].subscriptionEnd == None
    ensures s.Active? || s.Expired? ==> uid in users && users[uid].subscriptionEnd == Some(s.end)
    ensures s.Expired? ==> s.end <= now
  {
    if uid !in users then NotRegistered
    else match users[uid].subscriptionEnd
      case None => NoSubscription
      case Some(e) => if e > now then Active(e) else Expired(e)
  }

  /** At the instant a subscription ends it already reads as expired. */
  lemma ExpiredAtEnd(users: Users, uid: string, e: int)
    requires uid in users && users[uid].subscriptionEnd == Some(e)
    ensures Classify(users, uid, e) == Expired(e)
    ensures Classify(users, uid, e - 1) == Active(e)
  {
  }

  /** After `/verificar` the user's `/estado` shows the new end as active. */
  lemma ExtensionShowsActive(users: Users, uid: string, p: Plan, now: int)
    ensures Classify(ApplyExtension(users, uid, p, now), uid, now)
         == Active(ExtendedEnd(CurrentEnd(users, uid), p, now))
  {
  }

  // ---------------------------------------------------------------------------
  // Tips and purchases

  /** `tip_<unix seconds>`: the key `/creartip` stores a tip under. */
  function TipId(now: int): (id: string)
    ensures |id| > 4 && id[..4] == "tip_"
    ensures id[4] == '-' <==> now < 0
  {
    "tip_" + IntToString(now)
  }

  /** The text after `tip_` reads back as the second the tip was created in. */
  lemma TipIdReadsBack(now: int)
    ensures ParseInt(TipId(now)[4..]) == now
  {
    assert TipId(now)[4..] == IntToString(now);
    IntToStringRoundTrip(now);
  }

  /** Tip keys coincide exactly when the tips were created in the same second. */
  lemma TipIdSameSecond(a: int, b: int)
    ensures TipId(a) == TipId(b) <==> a == b
  {
    if TipId(a) == TipId(b) {
      TipIdReadsBack(a);
      TipIdReadsBack(b);
    }
  }

  /** `<user id>_<tip id>`: the key a purchase is recorded under. */
  function PurchaseKey(userId: string, tipId: string): (key: string)
    ensures |key| == |userId| + 1 + |tipId|
    ensures key[..|userId|] == userId && key[|userId|] == '_' && key[|userId| + 1..] == tipId
  {
    userId + "_" + tipId
  }

  /** Without `_` in the user identifier, the key's first `_` is the separator. */
  lemma PurchaseKeySeparator(userId: string, tipId: string)
    requires '_' !in userId
    ensures FirstIndexOf(PurchaseKey(userId, tipId), '_') == |userId|
  {
    FirstIndexAfterWord(userId, '_', tipId);
  }

  /**
   * Purchase keys tell purchases apart as long as user identifiers hold no
   * underscore (the platform's numeric identifiers never do).
   */
  lemma PurchaseKeyInjective(u1: string, t1: string, u2: string, t2: string)
    requires '_' !in u1 && '_' !in u2
    requires PurchaseKey(u1, t1) == PurchaseKey(u2, t2)
    ensures u1 == u2 && t1 == t2
  {
    PurchaseKeySeparator(u1, t1);
    PurchaseKeySeparator(u2, t2);
  }

  /** A purchase key of a filed tip, cut just before the seconds. */
  lemma FiledTipKeyParts(u: string, a: int)
    ensures PurchaseKey(u, TipId(a)) == (u + "_tip") + ['_'] + IntToString(a)
  {
    var t := IntToString(a);
    var k := PurchaseKey(u, TipId(a));
    var parts := (u + "_tip") + ['_'] + t;
    assert |k| == |parts|;
    forall i | 0 <= i < |k|
      ensures k[i] == parts[i]
    {
      if i < |u| {
      } else if i < |u| + 5 {
        assert k[i] == "_tip_"[i - |u|];
      } else {
        assert k[i] == t[i - |u| - 5];
      }
    }
  }

  /**
   * Purchase keys of tips filed by `/creartip`, under `tip_<seconds>`, tell
   * purchases apart whatever the user identifiers hold: the decimal seconds
   * hold no underscore, so the key's last `_` is the one inside `tip_`.
   */
  lemma PurchaseKeyOfFiledTipInjective(u1: string, a: int, u2: string, b: int)
    requires PurchaseKey(u1, TipId(a)) == PurchaseKey(u2, TipId(b))
    ensures u1 == u2 && a == b
  {
    var k := PurchaseKey(u1, TipId(a));
    var s1, s2 := IntToString(a), IntToString(b);
    FiledTipKeyParts(u1, a);
    FiledTipKeyParts(u2, b);
    NoUnderscoreInInt(a);
    NoUnderscoreInInt(b);
    LastIndexBeforeRest(u1 + "_tip", '_', s1);
    LastIndexBeforeRest(u2 + "_tip", '_', s2);
    assert s1 == k[|u1| + 5..] == s2;
    IntToStringInjective(a, b);
    assert u1 == k[..|u1|] == u2;
  }

  /**
   * A tip key not of the `tip_<seconds>` form, which only a hand-edited saved
   * document can hold, lets two different purchases share a key once a typed
   * user identifier holds an underscore.
   */
  lemma PurchaseKeyCollision()
    ensures PurchaseKey("1_tip", "5") == PurchaseKey("1", "tip_5")
  {
  }

  /**
   * `/comprartip <tip>` by `userId`: the payment instructions for the tip, unless
   * the tip is unknown or this user already has it. Nothing is recorded.
   */
  function ComprarTip(tips: Tips, purchases: Purchases, userId: string, args: seq<string>)
    : (r: Result<Tip, Error>)
    ensures |args| == 0 <==> r == Err(Usage)
    ensures |args| > 0 ==> (r == Err(TipNotFound) <==> args[0] !in tips)
    ensures |args| > 0 ==>
              (r == Err(AlreadyPurchased) <==> args[0] in tips && PurchaseKey(userId, args[0]) in purchases)
    ensures r.Ok? <==> |args| > 0 && args[0] in tips && PurchaseKey(userId, args[0]) !in purchases
    ensures r.Ok? ==> |args| > 0 && r.value == tips[args[0]]
  {
    if |args| < 1 then Err(Usage)
    else if args[0] !in tips then Err(TipNotFound)
    else if PurchaseKey(userId, args[0]) in purchases then Err(AlreadyPurchased)
    else Ok(tips[args[0]])
  }

  // ---------------------------------------------------------------------------
  // Statistics (`/stats`)

  datatype Stats = Stats(
    totalUsers: nat, activeSubs: nat, totalTips: nat, totalPurchases: nat,
    basicCount: nat, combinedCount: nat, monthlyCount: nat, revenueCents: nat)

  /** Users whose recorded last plan is `name`. */
  function PlanIds(users: Users, name: string): (ids: set<string>)
    ensures ids <= users.Keys
    ensures forall u :: u in ids <==> u in users && users[u].lastPlan == Some(name)
  {
    set u | u in users && users[u].lastPlan == Some(name)
  }

  /** A subset is no larger than its superset. */
  lemma SubsetCard(a: set<string>, b: set<string>)
    requires a <= b
    ensures |a| <= |b|
  {
    assert b == a + (b - a);
  }

  /** The three plan counts never exceed the number of users: a user has one last plan. */
  lemma PlanCountsBounded(users: Users)
    ensures |PlanIds(users, "basico")| + |PlanIds(users, "combinada")| + |PlanIds(users, "mensual")|
         <= |users|
  {
    var b, c, m := PlanIds(users, "basico"), PlanIds(users, "combinada"), PlanIds(users, "mensual");
    assert b !! c && b !! m && c !! m;
    assert |b + c| == |b| + |c|;
    assert |b + c + m| == |b + c| + |m|;
    SubsetCard(b + c + m, users.Keys);
    assert |users.Keys| == |users|;
  }

  /** What `/stats` reports; revenue is estimated from each user's last plan, in cents. */
  function ComputeStats(users: Users, tips: Tips, purchases: Purchases, now: int): (s: Stats)
    ensures s.totalUsers == |users| && s.totalTips == |tips| && s.totalPurchases == |purchases|
    ensures s.activeSubs == |ActiveIds(users, now)|
    ensures s.basicCount == |PlanIds(users, "basico")|
    ensures s.combinedCount == |PlanIds(users, "combinada")|
    ensures s.monthlyCount == |PlanIds(users, "mensual")|
    ensures s.revenueCents == EstimatedRevenue(s.basicCount, s.combinedCount, s.monthlyCount)
  {
    var b, c, m := |PlanIds(users, "basico")|, |PlanIds(users, "combinada")|, |PlanIds(users, "mensual")|;
    Stats(|users|, |ActiveIds(users, now)|, |tips|, |purchases|, b, c, m, EstimatedRevenue(b, c, m))
  }

  /**
   * The report is consistent: no more active subscribers than users, no more
   * plan buyers than users, and at most a monthly price per user in revenue.
   */
  lemma StatsBounded(users: Users, tips: Tips, purchases: Purchases, now: int)
    ensures var s := ComputeStats(users, tips, purchases, now);
      && s.activeSubs <= s.totalUsers
      && s.basicCount + s.combinedCount + s.monthlyCount <= s.totalUsers
      && s.revenueCents <= PriceCents(Mensual) * s.totalUsers
  {
    var s := ComputeStats(users, tips, purchases, now);
    SubsetCard(ActiveIds(users, now), users.Keys);
    assert |users.Keys| == |users|;
    PlanCountsBounded(users);
    var buyers := s.basicCount + s.combinedCount + s.monthlyCount;
    assert s.revenueCents <= PriceCents(Mensual) * buyers;
    assert PriceCents(Mensual) == 2999;
    assert 2999 * buyers <= 2999 * |users|;
  }

  /** `/stats` is admin-only. */
  function StatsReport(fromAdmin: bool, users: Users, tips: Tips, purchases: Purchases, now: int)
    : (r: Result<Stats, Error>)
    ensures !fromAdmin <==> r == Err(NotAdmin)
    ensures fromAdmin ==> r == Ok(ComputeStats(users, tips, purchases, now))
    ensures r.Ok? ==> r.value.activeSubs <= r.value.totalUsers
  {
    if !fromAdmin then Err(NotAdmin)
    else
      StatsBounded(users, tips, purchases, now);
      Ok(ComputeStats(users, tips, purchases, now))
  }

  /**
   * No handler writes `last_plan`: `/verificar` leaves every plan count, and so
   * the revenue estimate, where it was.
   */
  lemma ExtensionKeepsPlanCounts(users: Users, uid: string, p: Plan, now: int, name: string)
    ensures PlanIds(ApplyExtension(users, uid, p, now), name) == PlanIds(users, name)
  {
  }

  /** Two users whose last plan is `basico` give an estimate of 2 x 3.99, however often they renewed. */
  lemma RevenueFromLastPlanOnly(users: Users, tips: Tips, purchases: Purchases, now: int)
    requires |users| == 2
    requires forall u :: u in users ==> users[u].lastPlan == Some("basico")
    ensures ComputeStats(users, tips, purchases, now).revenueCents == 798
  {
    assert PlanIds(users, "basico") == users.Keys;
    assert PlanIds(users, "combinada") == {};
    assert PlanIds(users, "mensual") == {};
  }
}
