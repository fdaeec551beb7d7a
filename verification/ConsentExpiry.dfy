/** Cancelling bets nobody consented to in time: a compare-and-set, and no money moves. */
module ConsentExpiry {
  import opened Tables

  function AfterConsentExpiry(s: State, bet: Id): State {
    if bet in s.bets && s.bets[bet].status == PENDING_CONSENT
    then s.(bets := s.bets[bet := s.bets[bet].(status := CANCELLED)])
    else s
  }

  method ExpireConsent(db: Database, bet: Id) returns (notified: bool)
    modifies db
    ensures db.Now() == AfterConsentExpiry(old(db.Now()), bet)
    ensures notified <==> bet in old(db.bets) && old(db.bets)[bet].status == PENDING_CONSENT
    ensures db.balances == old(db.balances) && db.entries == old(db.entries) && db.limits == old(db.limits)
  {
    notified := bet in db.bets && db.bets[bet].status == PENDING_CONSENT;
    if notified {
      db.bets := db.bets[bet := db.bets[bet].(status := CANCELLED)];
    }
  }
}
