/** Which rows a claim takes: a fair share per member, oldest first, and never less than there is room for. */
module ClaimSelection {
  import opened Prelude
  import opened Tables
  import opened Transactions
  import opened Ranking

  lemma QueueOrderIsStrict(t: map<Id, Row>, ids: set<Id>)
    requires ids <= t.Keys
    ensures Strict(ids, QueueOrder(t))
  {
  }

  lemma SharedIsDue(db: Db, q: Queue, now: Time, limit: int)
    ensures Shared(db, q, now, limit) <= DueSet(db, q, now) <= Tab(db, q).Keys
  {
  }

  /** The claimed rows are the first `limit` of the rows within their member's share, in queue order. */
  lemma ClaimTakesTheFirst(db: Db, q: Queue, now: Time, limit: nat)
    ensures var shared, claimed := Shared(db, q, now, limit), Claimable(db, q, now, limit);
            && claimed <= shared && |claimed| == Min(limit, |shared|)
            && forall a, b | a in claimed && b in shared && b !in claimed :: Precedes(Tab(db, q), a, b)
  {
    var shared, claimed := Shared(db, q, now, limit), Claimable(db, q, now, limit);
    var order := QueueOrder(Tab(db, q));
    SharedIsDue(db, q, now, limit);
    QueueOrderIsStrict(Tab(db, q), shared);
    FirstCount(shared, order, limit);
    forall a, b | a in claimed && b in shared && b !in claimed
      ensures Precedes(Tab(db, q), a, b)
    {
      FirstPrecedes(shared, order, limit, a, b);
    }
  }

  /** Each member's share is full or holds all the member's due rows, and takes them in queue order. */
  lemma SharesAreFair(db: Db, q: Queue, now: Time, limit: nat, user: Id)
    ensures var due, shared := DueSet(db, q, now), Shared(db, q, now, limit);
            var mine, cap := OfUser(db, q, due, user), ShareCap(db, q, due, limit);
            && |OfUser(db, q, shared, user)| == Min(cap, |mine|)
            && forall a, b | a in OfUser(db, q, shared, user) && b in mine && b !in shared ::
                 Precedes(Tab(db, q), a, b)
  {
    var due, shared := DueSet(db, q, now), Shared(db, q, now, limit);
    var mine, cap := OfUser(db, q, due, user), ShareCap(db, q, due, limit);
    var order := QueueOrder(Tab(db, q));
    QueueOrderIsStrict(Tab(db, q), mine);
    assert OfUser(db, q, shared, user) == First(mine, order, cap);
    FirstCount(mine, order, cap);
    forall a, b | a in OfUser(db, q, shared, user) && b in mine && b !in shared
      ensures Precedes(Tab(db, q), a, b)
    {
      FirstPrecedes(mine, order, cap, a, b);
    }
  }

  /** When one member alone has due rows, the claim takes that member's first `limit`. */
  lemma OneMemberTakesAll(db: Db, q: Queue, now: Time, limit: nat)
    requires |Users(db, q, DueSet(db, q, now))| <= 1
    ensures Claimable(db, q, now, limit) == First(DueSet(db, q, now), QueueOrder(Tab(db, q)), limit)
  {
    var due := DueSet(db, q, now);
    forall id | id in due
      ensures OfUser(db, q, due, UserOf(db, q, id)) == due
    {
      forall j | j in due
        ensures UserOf(db, q, j) == UserOf(db, q, id)
      {
        assert UserOf(db, q, j) in Users(db, q, due) && UserOf(db, q, id) in Users(db, q, due);
        AtMostOne(Users(db, q, due), UserOf(db, q, j), UserOf(db, q, id));
      }
    }
    assert Shared(db, q, now, limit) == First(due, QueueOrder(Tab(db, q)), limit);
    FirstOfFirst(due, QueueOrder(Tab(db, q)), limit);
  }

  /** Nobody holds more than the share of a batch while others wait. */
  lemma NobodyTakesMore(db: Db, q: Queue, now: Time, limit: nat, user: Id)
    requires |Users(db, q, DueSet(db, q, now))| > 1
    ensures |OfUser(db, q, Claimable(db, q, now, limit), user)| <= USER_CAP
  {
    ClaimTakesTheFirst(db, q, now, limit);
    SharesAreFair(db, q, now, limit, user);
    SubsetCardinality(OfUser(db, q, Claimable(db, q, now, limit), user),
                      OfUser(db, q, Shared(db, q, now, limit), user));
  }

  lemma ClaimsDue(db: Db, q: Queue, now: Time, limit: nat)
    ensures AllDue(db, q, now, Claimable(db, q, now, limit))
  {
    ClaimTakesTheFirst(db, q, now, limit);
    SharedIsDue(db, q, now, limit);
  }

  /** What the claim transaction leases is what a claim step of the delivery protocol may lease. */
  lemma ClaimIsAStep(db: Db, q: Queue, now: Time, limit: nat, owner: string, lease: Time)
    ensures AllDue(db, q, now, Claimable(db, q, now, limit))
    ensures !Blank(OwnerName(owner)) && now < LeaseEnd(now, lease)
  {
    ClaimsDue(db, q, now, limit);
  }

  // ---- the claim, row by row

  /** The rows that go to destinations of this member. */
  function Members(db: Db, q: Queue, ids: set<Id>, user: Id): set<Id> {
    set id | id in ids && id in Tab(db, q)
      && Tab(db, q)[id].dest in db.dests && db.dests[Tab(db, q)[id].dest].user == user
  }

  predicate Earlier(t: map<Id, Row>, a: Id, b: Id)
    requires a in t && b in t
  {
    t[a].nextAt < t[b].nextAt || (t[a].nextAt == t[b].nextAt && a < b)
  }

  predicate SameMember(db: Db, q: Queue, a: Id, b: Id)
    requires a in Tab(db, q) && b in Tab(db, q)
  {
    && Tab(db, q)[a].dest in db.dests && Tab(db, q)[b].dest in db.dests
    && db.dests[Tab(db, q)[a].dest].user == db.dests[Tab(db, q)[b].dest].user
  }

  predicate OneMemberWaits(db: Db, q: Queue, due: set<Id>)
    requires due <= Tab(db, q).Keys
  {
    forall a, b | a in due && b in due :: SameMember(db, q, a, b)
  }

  lemma MembersAre(db: Db, q: Queue, now: Time, ids: set<Id>, user: Id)
    requires ids <= DueSet(db, q, now)
    ensures Members(db, q, ids, user) == OfUser(db, q, ids, user)
  {
    forall id | id in ids
      ensures UserOf(db, q, id) == db.dests[Tab(db, q)[id].dest].user
    {
      assert Due(db, q, now, id);
    }
    assert forall id | id in OfUser(db, q, ids, user) :: Due(db, q, now, id);
  }

  lemma SeveralMembers(db: Db, q: Queue, now: Time)
    ensures DueSet(db, q, now) <= Tab(db, q).Keys
    ensures OneMemberWaits(db, q, DueSet(db, q, now)) <==> |Users(db, q, DueSet(db, q, now))| <= 1
  {
    var due := DueSet(db, q, now);
    var users := Users(db, q, due);
    if |users| <= 1 {
      forall a, b | a in due && b in due
        ensures SameMember(db, q, a, b)
      {
        assert Due(db, q, now, a) && Due(db, q, now, b);
        assert UserOf(db, q, a) in users && UserOf(db, q, b) in users;
        AtMostOne(users, UserOf(db, q, a), UserOf(db, q, b));
      }
    } else if OneMemberWaits(db, q, due) {
      OneMemberIsOne(db, q, now);
    }
  }

  lemma OneMemberIsOne(db: Db, q: Queue, now: Time)
    requires DueSet(db, q, now) <= Tab(db, q).Keys && OneMemberWaits(db, q, DueSet(db, q, now))
    ensures |Users(db, q, DueSet(db, q, now))| <= 1
  {
    var due := DueSet(db, q, now);
    var users := Users(db, q, due);
    if u :| u in users {
      var a :| a in due && UserOf(db, q, a) == u;
      forall v | v in users
        ensures v == u
      {
        var b :| b in due && UserOf(db, q, b) == v;
        assert SameMember(db, q, a, b) && Due(db, q, now, a) && Due(db, q, now, b);
      }
      assert users == {u};
    } else {
      assert users == {};
    }
  }

  /**
   What a claim of at most `limit` rows takes: due rows only; five of a member at most while several members wait; and
   it passes over a due row only when the claim is full of earlier ones, or its member has five earlier ones in it.
   */
  lemma ClaimIsFair(db: Db, q: Queue, now: Time, limit: nat, b: Id)
    requires b in DueSet(db, q, now) && b !in Claimable(db, q, now, limit)
    ensures var due, claimed, t := DueSet(db, q, now), Claimable(db, q, now, limit), Tab(db, q);
            && claimed <= due <= t.Keys && |claimed| <= limit && t[b].dest in db.dests
            && var mine := Members(db, q, claimed, db.dests[t[b].dest].user);
               || (|claimed| == limit && forall a | a in claimed :: Earlier(t, a, b))
               || (!OneMemberWaits(db, q, due) && |mine| == 5 && forall a | a in mine :: Earlier(t, a, b))
  {
    var due, claimed, shared := DueSet(db, q, now), Claimable(db, q, now, limit), Shared(db, q, now, limit);
    var t, user := Tab(db, q), UserOf(db, q, b);
    assert Due(db, q, now, b);
    ClaimTakesTheFirst(db, q, now, limit);
    SharedIsDue(db, q, now, limit);
    SeveralMembers(db, q, now);
    MembersAre(db, q, now, claimed, user);
    if b in shared {
      FullWithout(claimed, shared, b, limit);
    } else {
      PassedOver(db, q, now, limit, b);
    }
  }

  lemma FullWithout(claimed: set<Id>, shared: set<Id>, b: Id, limit: nat)
    requires claimed <= shared && b in shared && b !in claimed && |claimed| == Min(limit, |shared|)
    ensures |claimed| == limit
  {
    SubsetCardinality(claimed + {b}, shared);
  }

  /** A due row outside its member's share: the share is full of earlier rows, all claimed, or the claim is full. */
  lemma PassedOver(db: Db, q: Queue, now: Time, limit: nat, b: Id)
    requires b in DueSet(db, q, now) && b !in Shared(db, q, now, limit)
    ensures var due, claimed, t := DueSet(db, q, now), Claimable(db, q, now, limit), Tab(db, q);
            && claimed <= due <= t.Keys
            && var mine := OfUser(db, q, claimed, UserOf(db, q, b));
               || (|claimed| == limit && forall a | a in claimed :: Earlier(t, a, b))
               || (|Users(db, q, due)| > 1 && |mine| == 5 && forall a | a in mine :: Earlier(t, a, b))
  {
    var due, claimed, shared := DueSet(db, q, now), Claimable(db, q, now, limit), Shared(db, q, now, limit);
    var t, user := Tab(db, q), UserOf(db, q, b);
    var share := OfUser(db, q, shared, user);
    ClaimTakesTheFirst(db, q, now, limit);
    SharedIsDue(db, q, now, limit);
    SharesAreFair(db, q, now, limit, user);
    assert forall a | a in share :: Precedes(t, a, b);
    FullShare(db, q, due, user, share, b, limit);
    if share <= claimed {
      assert OfUser(db, q, claimed, user) == share;
      if |Users(db, q, due)| <= 1 {
        SubsetCardinality(share, claimed);
        OneMemberTakesAll(db, q, now, limit);
        QueueOrderIsStrict(t, due);
        FirstCount(due, QueueOrder(t), limit);
        forall a | a in claimed
          ensures Earlier(t, a, b)
        {
          FirstPrecedes(due, QueueOrder(t), limit, a, b);
        }
      }
    } else {
      var c :| c in share && c !in claimed;
      FullWithout(claimed, shared, c, limit);
      forall a | a in claimed
        ensures Earlier(t, a, b)
      {
        assert Precedes(t, a, c) && Precedes(t, c, b);
      }
    }
  }

  lemma FullShare(db: Db, q: Queue, due: set<Id>, user: Id, share: set<Id>, b: Id, limit: nat)
    requires b in OfUser(db, q, due, user) && b !in share && share <= OfUser(db, q, due, user)
    requires |share| == Min(ShareCap(db, q, due, limit), |OfUser(db, q, due, user)|)
    ensures |share| == ShareCap(db, q, due, limit)
  {
    SubsetCardinality(share + {b}, OfUser(db, q, due, user));
  }

  /** While several members wait, nobody has more than five rows in a claim. */
  lemma AtMostFive(db: Db, q: Queue, now: Time, limit: nat, user: Id)
    requires DueSet(db, q, now) <= Tab(db, q).Keys && !OneMemberWaits(db, q, DueSet(db, q, now))
    ensures |Members(db, q, Claimable(db, q, now, limit), user)| <= 5
  {
    SeveralMembers(db, q, now);
    NobodyTakesMore(db, q, now, limit, user);
    ClaimTakesTheFirst(db, q, now, limit);
    SharedIsDue(db, q, now, limit);
    MembersAre(db, q, now, Claimable(db, q, now, limit), user);
  }

  // ---- the lease

  predicate IsPadding(s: string) {
    forall i | 0 <= i < |s| :: IsSpace(s[i])
  }

  /** A claim lasts as long as it was asked to, and two minutes otherwise; a runner without a name has one made up. */
  lemma LeaseTerms(owner: string, now: Time, lease: Time)
    ensures LeaseEnd(now, lease) == now + (if lease > 0 then lease else 2 * MINUTE)
    ensures IsPadding(owner) ==> OwnerName(owner) == "legacy-worker"
    ensures !IsPadding(owner) ==> OwnerName(owner) == Trim(owner)
  {
  }
}
