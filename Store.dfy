/**
 * The bot's in-memory document: three maps that the command handlers update in
 * place (the whole document is written back to disk after each update; that
 * write is not modelled). Each handler method returns what it replies with and
 * states the new contents of the maps in terms of the rules in `Ledger`.
 */
module BotStore {
  import opened Wrappers
  import opened Text
  import opened Plans
  import opened Ledger

  /** What `/enviartip` did: the text it sent, whom it tried and whom it reached. */
  datatype Broadcast = Broadcast(message: string, attempted: set<string>, delivered: set<string>, sentCount: nat)

  class Store {
    var users: Users
    var tips: Tips
    var purchases: Purchases

    /**
     * What the handlers keep true of a document they built themselves: every
     * tip is filed under the key of its creation second, and every purchase
     * under its own user/tip key, for a tip that exists. No handler needs it
     * to run (each one checks what it reads); the two lemmas below state what
     * it gives a reader of the document.
     */
    ghost predicate Valid()
      reads this
    {
      && (forall id :: id in tips ==> id == TipId(tips[id].createdAt))
      && (forall k :: k in purchases ==>
            k == PurchaseKey(purchases[k].userId, purchases[k].tipId) && purchases[k].tipId in tips)
    }

    /** In a valid document no two tips were created in the same second. */
    lemma TipsFromDistinctSeconds(a: string, b: string)
      requires Valid()
      requires a in tips && b in tips && a != b
      ensures tips[a].createdAt != tips[b].createdAt
    {
    }

    /** In a valid document a user holds at most one purchase record per tip. */
    lemma OnePurchasePerUserAndTip(k1: string, k2: string)
      requires Valid()
      requires k1 in purchases && k2 in purchases
      requires purchases[k1].userId == purchases[k2].userId && purchases[k1].tipId == purchases[k2].tipId
      ensures k1 == k2
    {
    }

    /** The document used when none is saved yet: three empty collections. */
    constructor ()
      ensures Valid()
      ensures users == map[] && tips == map[] && purchases == map[]
    {
      users, tips, purchases := map[], map[], map[];
    }

    /** `/start` from user `userId`. */
    method Start(userId: string, username: Option<string>, firstName: Option<string>, now: int)
      modifies this`users
      ensures users == Register(old(users), userId, username, firstName, now)
      ensures old(Valid()) ==> Valid()
    {
      if userId !in users {
        users := users[userId := NewUser(username, firstName, now)];
      }
    }

    /**
     * `/verificar <user> <plan>`: records a payment the admin has checked and
     * returns the new end. A rejected command changes nothing; in particular it
     * creates no user record.
     */
    method Verificar(fromAdmin: bool, args: seq<string>, now: int) returns (r: Result<int, Error>)
      modifies this`users
      ensures !fromAdmin ==> r == Err(NotAdmin)
      ensures fromAdmin && |args| < 2 ==> r == Err(Usage)
      ensures fromAdmin && |args| >= 2 && ParsePlan(args[1]).None? ==> r == Err(InvalidPlan)
      ensures r.Err? ==> users == old(users)
      ensures r.Ok? <==> fromAdmin && |args| >= 2 && ParsePlan(args[1]).Some?
      ensures r.Ok? ==>
                var p := ParsePlan(args[1]).value;
                && r.value == ExtendedEnd(CurrentEnd(old(users), args[0]), p, now)
                && users == ApplyExtension(old(users), args[0], p, now)
      ensures old(Valid()) ==> Valid()
    {
      if !fromAdmin {
        return Err(NotAdmin);
      }
      if |args| < 2 {
        return Err(Usage);
      }
      var userId := args[0];
      var plan := ParsePlan(args[1]);
      if plan.None? {
        return Err(InvalidPlan);
      }
      var days := Days(plan.value);
      if userId !in users {
        users := users[userId := NewUser(None, None, now)];
      }
      var currentEnd := users[userId].subscriptionEnd;
      var newEnd;
      if currentEnd.Some? {
        if currentEnd.value > now {
          newEnd := currentEnd.value + days * DAY;
        } else {
          newEnd := now + days * DAY;
        }
      } else {
        newEnd := now + days * DAY;
      }
      users := users[userId := users[userId].(subscriptionEnd := Some(newEnd))];
      r := Ok(newEnd);
    }

    /**
     * `/creartip <odds> <price> <words...>`: files a tip under the key of the
     * current second and returns that key. A tip created earlier in the same
     * second is replaced, so the tip count grows by at most one.
     */
    method CrearTip(fromAdmin: bool, args: seq<string>, now: int) returns (r: Result<string, Error>)
      modifies this`tips
      ensures !fromAdmin ==> r == Err(NotAdmin)
      ensures fromAdmin && |args| < 3 ==> r == Err(Usage)
      ensures r.Err? ==> tips == old(tips)
      ensures r.Ok? <==> fromAdmin && |args| >= 3
      ensures r.Ok? ==>
                && r.value == TipId(now)
                && tips == old(tips)[TipId(now) := Tip(args[0], args[1], JoinWords(args[2..]), now)]
      ensures |old(tips)| <= |tips| <= |old(tips)| + 1
      ensures |tips| == |old(tips)| + 1 <==> r.Ok? && r.value !in old(tips)
      ensures old(Valid()) ==> Valid()
    {
      if !fromAdmin {
        return Err(NotAdmin);
      }
      if |args| < 3 {
        return Err(Usage);
      }
      var tipId := TipId(now);
      tips := tips[tipId := Tip(args[0], args[1], JoinWords(args[2..]), now)];
      r := Ok(tipId);
    }

    /**
     * `/verificartip <user> <tip>`: records that the user paid for the tip and
     * returns the tip to deliver. Only the tip's existence is checked; an
     * existing purchase under the same key is overwritten.
     */
    method VerificarTip(fromAdmin: bool, args: seq<string>, now: int) returns (r: Result<Tip, Error>)
      modifies this`purchases
      ensures !fromAdmin ==> r == Err(NotAdmin)
      ensures fromAdmin && |args| < 2 ==> r == Err(Usage)
      ensures fromAdmin && |args| >= 2 ==> (r == Err(TipNotFound) <==> args[1] !in tips)
      ensures r.Err? ==> purchases == old(purchases)
      ensures r.Ok? <==> fromAdmin && |args| >= 2 && args[1] in tips
      ensures r.Ok? ==>
                && r.value == tips[args[1]]
                && purchases == old(purchases)[PurchaseKey(args[0], args[1]) := Purchase(args[0], args[1], now)]
                && purchases.Keys == old(purchases).Keys + {PurchaseKey(args[0], args[1])}
      ensures old(Valid()) ==> Valid()
    {
      if !fromAdmin {
        return Err(NotAdmin);
      }
      if |args| < 2 {
        return Err(Usage);
      }
      var userId, tipId := args[0], args[1];
      if tipId !in tips {
        return Err(TipNotFound);
      }
      var key := PurchaseKey(userId, tipId);
      purchases := purchases[key := Purchase(userId, tipId, now)];
      r := Ok(tips[tipId]);
    }

    /**
     * `/enviartip <words...>`: sends the joined words to every active
     * subscriber and counts the sends that succeed. `reachable` holds the users
     * a message can be delivered to; a failed send is only logged.
     */
    method EnviarTip(fromAdmin: bool, args: seq<string>, now: int, reachable: set<string>)
      returns (r: Result<Broadcast, Error>)
      ensures !fromAdmin ==> r == Err(NotAdmin)
      ensures fromAdmin && |args| == 0 ==> r == Err(Usage)
      ensures fromAdmin && |args| > 0 ==> r.Ok?
      ensures r.Ok? ==>
                && r.value.message == JoinWords(args)
                && r.value.attempted == ActiveIds(users, now)
                && r.value.delivered == ActiveIds(users, now) * reachable
                && r.value.sentCount == |r.value.delivered|
                && r.value.sentCount <= |ActiveIds(users, now)| <= |users|
    {
      if !fromAdmin {
        return Err(NotAdmin);
      }
      if |args| < 1 {
        return Err(Usage);
      }
      var message := JoinWords(args);
      var attempted, delivered, sentCount := SendToActive(now, reachable);
      r := Ok(Broadcast(message, attempted, delivered, sentCount));
    }

    /**
     * The loop of `/enviartip`: visits every user once, tries the active ones
     * and counts those the message reaches.
     */
    method SendToActive(now: int, reachable: set<string>)
      returns (attempted: set<string>, delivered: set<string>, sentCount: nat)
      ensures attempted == ActiveIds(users, now)
      ensures delivered == attempted * reachable
      ensures sentCount == |delivered| <= |attempted| <= |users|
    {
      var all := users;
      ghost var active := ActiveIds(all, now);
      var remaining := all.Keys;
      attempted, delivered, sentCount := {}, {}, 0;
      while remaining != {}
        invariant remaining <= all.Keys
        invariant attempted <= all.Keys - remaining
        invariant forall u :: u in all && u !in remaining ==> (u in attempted <==> u in active)
        invariant forall u :: u in delivered <==> u in attempted && u in reachable
        invariant sentCount == |delivered|
        decreases remaining
      {
        var userId :| userId in remaining;
        var subscriptionEnd := all[userId].subscriptionEnd;
        if subscriptionEnd.Some? && subscriptionEnd.value > now {
          attempted := attempted + {userId};
          if userId in reachable {
            delivered := delivered + {userId};
            sentCount := sentCount + 1;
          }
        }
        remaining := remaining - {userId};
      }
      assert attempted == active;
      assert delivered == attempted * reachable;
      SubsetCard(delivered, attempted);
      SubsetCard(attempted, all.Keys);
      assert |all.Keys| == |all|;
    }
  }

  /**
   * A tip created and bought by a user who has not bought it: `/comprartip`
   * accepts it, the admin's `/verificartip` records it, after which
   * `/comprartip` refuses it, while a second `/verificartip` still succeeds and
   * leaves one purchase under the key.
   */
  method PurchaseScenario(userId: string, odds: string, price: string, words: seq<string>, now: int)
    returns (firstAsk: Result<Tip, Error>, secondAsk: Result<Tip, Error>, purchaseCount: nat)
    requires |words| > 0
    ensures firstAsk.Ok? && firstAsk.value.descripcion == JoinWords(words)
    ensures secondAsk == Err(AlreadyPurchased)
    ensures purchaseCount == 1
  {
    var store := new Store();
    var created := store.CrearTip(true, [odds, price] + words, now);
    assert ([odds, price] + words)[2..] == words;
    var tipId := created.value;
    assert store.tips[tipId] == Tip(odds, price, JoinWords(words), now) && store.purchases == map[];
    firstAsk, secondAsk, purchaseCount := BuyTwice(store, userId, tipId, now);
  }

  /**
   * The purchase half of `PurchaseScenario`, on a document that has the tip and
   * no purchases: ask, record, ask again, record again.
   */
  method BuyTwice(store: Store, userId: string, tipId: string, now: int)
    returns (firstAsk: Result<Tip, Error>, secondAsk: Result<Tip, Error>, purchaseCount: nat)
    requires tipId in store.tips && store.purchases == map[]
    modifies store
    ensures store.tips == old(store.tips)
    ensures firstAsk == Ok(store.tips[tipId])
    ensures secondAsk == Err(AlreadyPurchased)
    ensures purchaseCount == 1
  {
    firstAsk := ComprarTip(store.tips, store.purchases, userId, [tipId]);
    var verifyArgs := [userId, tipId];
    assert verifyArgs[0] == userId && verifyArgs[1] == tipId;
    var delivered := store.VerificarTip(true, verifyArgs, now);
    assert delivered.Ok?;
    var key := PurchaseKey(userId, tipId);
    assert store.purchases.Keys == {key};
    secondAsk := ComprarTip(store.tips, store.purchases, userId, [tipId]);
    delivered := store.VerificarTip(true, verifyArgs, now + 1);
    assert delivered.Ok?;
    assert store.purchases.Keys == {key};
    assert |store.purchases| == |store.purchases.Keys|;
    purchaseCount := |store.purchases|;
  }
}
