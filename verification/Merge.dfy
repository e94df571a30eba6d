/** Account merge as a value: what each statement does to its table, and what the whole merge amounts to. */
module Merge {
  import opened Prelude
  import opened Domain
  import opened Tables
  import opened Sums

  // ----- One table at a time -----------------------------------------------------

  function Owner(u: nat, src: nat, dst: nat): nat {
    if u == src then dst else u
  }

  function AddTotals(users: map<nat, User>, from: User, dst: nat): map<nat, User> {
    if dst in users then
      var r := users[dst];
      users[dst := r.(balance := r.balance + from.balance, ltv := r.ltv + from.ltv,
                      trialUsed := r.trialUsed || from.trialUsed)]
    else users
  }

  function MoveSubs(subs: map<nat, Sub>, src: nat, dst: nat): map<nat, Sub> {
    map s | s in subs :: subs[s].(user := Owner(subs[s].user, src, dst))
  }

  function MovePayments(payments: map<nat, Payment>, src: nat, dst: nat): map<nat, Payment> {
    map p | p in payments :: payments[p].(user := Owner(payments[p].user, src, dst))
  }

  function MoveLedger(ledger: seq<Row>, src: nat, dst: nat): (moved: seq<Row>)
    ensures |moved| == |ledger|
    ensures forall i | 0 <= i < |ledger| :: moved[i] == ledger[i].(user := Owner(ledger[i].user, src, dst))
  {
    seq(|ledger|, i requires 0 <= i < |ledger| => ledger[i].(user := Owner(ledger[i].user, src, dst)))
  }

  function MoveChildren(children: map<(ChildTable, nat), nat>, tables: set<ChildTable>, src: nat,
          dst: nat): map<(ChildTable, nat), nat> {
    map c | c in children :: if c.0 in tables then Owner(children[c], src, dst) else children[c]
  }

  function MoveExpansions(expansions: map<nat, DeviceExpansion>, src: nat, dst: nat): map<nat, DeviceExpansion> {
    map e | e in expansions :: expansions[e].(user := Owner(expansions[e].user, src, dst))
  }

  function MoveCreators(promos: map<nat, Promo>, src: nat, dst: nat): map<nat, Promo> {
    map p | p in promos :: promos[p].(creator := Owner(promos[p].creator, src, dst))
  }

  function MoveRewards(rewards: map<nat, Reward>, src: nat, dst: nat): map<nat, Reward> {
    map w | w in rewards :: rewards[w].(referrer := Owner(rewards[w].referrer, src, dst))
  }

  /** UPDATE referrals ... WHERE referrer_id = src AND referee_id <> dst. */
  function MoveReferrals(referrals: map<nat, Referral>, src: nat, dst: nat): map<nat, Referral> {
    map r | r in referrals ::
      if referrals[r].referee == dst then referrals[r]
      else referrals[r].(referrer := Owner(referrals[r].referrer, src, dst))
  }

  function DropRewards(rewards: map<nat, Reward>, gone: set<nat>): map<nat, Reward> {
    map w | w in rewards && rewards[w].referral !in gone :: rewards[w]
  }

  function OfReferee(referrals: map<nat, Referral>, u: nat): set<nat> {
    set r | r in referrals && referrals[r].referee == u
  }

  function OfReferrer(referrals: map<nat, Referral>, u: nat): set<nat> {
    set r | r in referrals && referrals[r].referrer == u
  }

  function SelfReferrals(referrals: map<nat, Referral>, u: nat): set<nat> {
    set r | r in referrals && referrals[r].referrer == u && referrals[r].referee == u
  }

  /** Promo uses of src move unless dst already used the promo. */
  function MoveUses(uses: map<nat, (nat, nat)>, src: nat, dst: nat): map<nat, (nat, nat)> {
    map x | x in uses ::
      if uses[x].1 == src && !UsedBy(uses, uses[x].0, dst) then (uses[x].0, dst) else uses[x]
  }

  function DropUses(uses: map<nat, (nat, nat)>, u: nat): map<nat, (nat, nat)> {
    map x | x in uses && uses[x].1 != u :: uses[x]
  }

  function Repoint(users: map<nat, User>, src: nat, dst: nat): map<nat, User> {
    map u | u in users ::
      if users[u].referrer == Some(src) && u != dst then users[u].(referrer := Some(dst)) else users[u]
  }

  function ClearReferrer(users: map<nat, User>, dst: nat, src: nat): map<nat, User> {
    if dst in users && users[dst].referrer == Some(src) then users[dst := users[dst].(referrer := None)] else users
  }

  // ----- The whole merge ----------------------------------------------------------

  function MergedUsers(users: map<nat, User>, src: nat, dst: nat): map<nat, User>
    requires src in users
  {
    RepointedUsers(users, src, dst) - {src}
  }

  function MergedReferrals(referrals: map<nat, Referral>, src: nat, dst: nat): map<nat, Referral> {
    map r | r in referrals && referrals[r].referee != src
        && !(referrals[r].referrer == src && referrals[r].referee == dst) ::
      referrals[r].(referrer := Owner(referrals[r].referrer, src, dst))
  }

  function MergedRewards(rewards: map<nat, Reward>, referrals: map<nat, Referral>, src: nat,
          dst: nat): map<nat, Reward> {
    var kept := MergedReferrals(referrals, src, dst);
    map w | w in rewards && rewards[w].referral in kept ::
      rewards[w].(referrer := Owner(rewards[w].referrer, src, dst))
  }

  const ALL_CHILDREN: set<ChildTable> :=
    {Tickets, TicketMessages, ShopOrders, Devices, AccountActivity, RiskEvents, AuditLogs, Notifications}

  lemma AllChildren()
    ensures forall t: ChildTable :: t in ALL_CHILDREN
  {
    forall t: ChildTable ensures t in ALL_CHILDREN {
      assert t.Tickets? || t.TicketMessages? || t.ShopOrders? || t.Devices?
          || t.AccountActivity? || t.RiskEvents? || t.AuditLogs? || t.Notifications?;
    }
  }

  function Merged(db: DB, src: nat, dst: nat): DB
    requires src in db.users
  {
    DB(db.now,
       MergedUsers(db.users, src, dst),
       MovePayments(db.payments, src, dst),
       MoveSubs(db.subs, src, dst),
       MoveLedger(db.ledger, src, dst),
       MergedReferrals(db.referrals, src, dst),
       MergedRewards(db.rewards, db.referrals, src, dst),
       MoveCreators(db.promos, src, dst),
       DropUses(MoveUses(db.uses, src, dst), src),
       MoveExpansions(db.expansions, src, dst),
       MoveChildren(db.children, ALL_CHILDREN, src, dst))
  }

  /** Both accounts hold a PENDING payment for one plan: the partial unique index rejects the move. */
  predicate PendingClash(payments: map<nat, Payment>, src: nat, dst: nat) {
    exists p, q | p in payments && q in payments ::
      && payments[p].status == PENDING && payments[q].status == PENDING
      && payments[p].user == src && payments[q].user == dst && payments[p].plan == payments[q].plan
  }

  /** Both accounts hold an expansion row: UNIQUE (user_id) rejects the move. */
  predicate ExpansionClash(expansions: map<nat, DeviceExpansion>, src: nat, dst: nat) {
    exists e, f | e in expansions && f in expansions :: expansions[e].user == src && expansions[f].user == dst
  }

  /** No statement of the merge would write dst into a row: src is at most somebody's referee. */
  predicate NothingToMove(db: DB, src: nat) {
    && (forall v | v in db.users :: db.users[v].referrer != Some(src))
    && (forall p | p in db.payments :: db.payments[p].user != src)
    && (forall s | s in db.subs :: db.subs[s].user != src)
    && (forall i | 0 <= i < |db.ledger| :: db.ledger[i].user != src)
    && (forall r | r in db.referrals :: db.referrals[r].referrer != src)
    && (forall w | w in db.rewards :: db.rewards[w].referrer != src)
    && (forall p | p in db.promos :: db.promos[p].creator != src)
    && (forall x | x in db.uses :: db.uses[x].1 != src)
    && (forall e | e in db.expansions :: db.expansions[e].user != src)
    && (forall c | c in db.children :: db.children[c] != src)
  }

  /** When the whole merge commits: no unique index is met, and no row is pointed at a missing account. */
  ghost predicate CanMerge(db: DB, src: nat, dst: nat) {
    && src in db.users
    && if dst in db.users then !PendingClash(db.payments, src, dst) && !ExpansionClash(db.expansions, src, dst)
       else NothingToMove(db, src)
  }

  // ----- What a merge leaves ------------------------------------------------------

  ghost predicate Unreferenced(db: DB, u: nat) {
    && (forall v | v in db.users :: db.users[v].referrer != Some(u))
    && (forall p | p in db.payments :: db.payments[p].user != u)
    && (forall s | s in db.subs :: db.subs[s].user != u)
    && (forall i | 0 <= i < |db.ledger| :: db.ledger[i].user != u)
    && (forall r | r in db.referrals :: db.referrals[r].referrer != u && db.referrals[r].referee != u)
    && (forall w | w in db.rewards :: db.rewards[w].referrer != u)
    && (forall p | p in db.promos :: db.promos[p].creator != u)
    && (forall x | x in db.uses :: db.uses[x].1 != u)
    && (forall e | e in db.expansions :: db.expansions[e].user != u)
    && (forall c | c in db.children :: db.children[c] != u)
  }

  ghost predicate Unmentioned(db: DB, u: nat) {
    u !in db.users && Unreferenced(db, u)
  }

  /** The users table just before the source row is deleted, by which time nothing refers to it. */
  function RepointedUsers(users: map<nat, User>, src: nat, dst: nat): map<nat, User>
    requires src in users
  {
    ClearReferrer(Repoint(AddTotals(users, users[src], dst), src, dst), dst, src)
  }

  lemma SourceCanBeDeleted(db: DB, src: nat, dst: nat)
    requires src in db.users && src != dst
    ensures Unreferenced(Merged(db, src, dst).(users := RepointedUsers(db.users, src, dst)), src)
  {
    MergeLeavesNoMention(db, src, dst);
  }

  lemma RepointKeepsUsers(users: map<nat, User>, src: nat, dst: nat)
    requires UsersOk(users) && dst in users
    ensures var after := ClearReferrer(Repoint(users, src, dst), dst, src);
            UsersOk(after) && after.Keys == users.Keys
  {
  }

  /** Steps 5 to 8 on the referral tables, composed; step 8 finds nothing left to delete. */
  lemma ReferralStages(referrals: map<nat, Referral>, rewards: map<nat, Reward>, src: nat, dst: nat)
    requires src != dst
    requires forall r | r in referrals :: referrals[r].referrer != referrals[r].referee
    requires forall w | w in rewards :: rewards[w].referral in referrals
    ensures var r1 := MoveReferrals(referrals, src, dst);
            var r2 := r1 - OfReferee(r1, src);
            var r3 := r2 - OfReferrer(r2, src);
            && r3 == MergedReferrals(referrals, src, dst)
            && SelfReferrals(r3, dst) == {}
            && DropRewards(DropRewards(MoveRewards(rewards, src, dst), OfReferee(r1, src)), OfReferrer(r2, src))
               == MergedRewards(rewards, referrals, src, dst)
  {
  }

  lemma MergedUsersForgetSource(users: map<nat, User>, src: nat, dst: nat)
    requires src in users && src != dst
    ensures var after := MergedUsers(users, src, dst);
            && after.Keys == users.Keys - {src}
            && (forall v | v in after :: after[v].referrer != Some(src))
  {
  }

  /**
   The destination collects money, LTV and the trial mark; everybody else is only re-pointed;
   nobody refers to themselves through the merge.
   */
  lemma MergeEnrichesOnlyTheDestination(users: map<nat, User>, src: nat, dst: nat, v: nat)
    requires src in users && dst in users && src != dst && v in users && v != src
    ensures var before, after := users[v], MergedUsers(users, src, dst)[v];
            && after.balance == before.balance + (if v == dst then users[src].balance else 0)
            && after.ltv == before.ltv + (if v == dst then users[src].ltv else 0)
            && after.trialUsed == (before.trialUsed || (v == dst && users[src].trialUsed))
            && after.referrer == (if before.referrer != Some(src) then before.referrer
                                  else if v == dst then None else Some(dst))
            && after.risk == before.risk
  {
  }

  lemma MergedUsesForgetSource(uses: map<nat, (nat, nat)>, src: nat, dst: nat)
    ensures var after := DropUses(MoveUses(uses, src, dst), src); forall x | x in after :: after[x].1 != src
  {
  }

  /** The guard is what keeps the unique index: without it a code both accounts used would meet itself. */
  lemma MovedUsesStayUnique(uses: map<nat, (nat, nat)>, src: nat, dst: nat)
    requires UsesUnique(uses) && src != dst
    ensures UsesUnique(MoveUses(uses, src, dst)) && UsesUnique(DropUses(MoveUses(uses, src, dst), src))
  {
    var after := MoveUses(uses, src, dst);
    forall x, y | x in after && y in after && x != y ensures after[x] != after[y] {
      assert uses[x] != uses[y];
    }
  }

  /** No row of any table refers to the source account once the merge is done. */
  lemma MergeLeavesNoMention(db: DB, src: nat, dst: nat)
    requires src in db.users && src != dst
    ensures Unmentioned(Merged(db, src, dst), src)
  {
    MergedUsersForgetSource(db.users, src, dst);
    MergedUsesForgetSource(db.uses, src, dst);
    hide MergedUsers, MoveUses, DropUses;
    AllChildren();
  }

  /** Row by row: what belonged to the source belongs to the destination, and no other column of any row changes. */
  lemma MergeReaddressesEveryRow(db: DB, src: nat, dst: nat)
    requires src in db.users && src != dst
    ensures var t := Merged(db, src, dst);
            && t.subs.Keys == db.subs.Keys && t.payments.Keys == db.payments.Keys && t.promos.Keys == db.promos.Keys
            && t.expansions.Keys == db.expansions.Keys && t.children.Keys == db.children.Keys
            && |t.ledger| == |db.ledger|
            && (forall x | x in db.subs ::
                  t.subs[x] == db.subs[x].(user := if db.subs[x].user == src then dst else db.subs[x].user))
            && (forall x | x in db.payments ::
                  t.payments[x]
                  == db.payments[x].(user := if db.payments[x].user == src then dst else db.payments[x].user))
            && (forall x | x in db.expansions ::
                  t.expansions[x]
                  == db.expansions[x].(user := if db.expansions[x].user == src then dst else db.expansions[x].user))
            && (forall x | x in db.promos ::
                  t.promos[x] == db.promos[x].(creator := if db.promos[x].creator == src then dst
                                                         else db.promos[x].creator))
            && (forall x | x in db.children :: t.children[x] == if db.children[x] == src then dst else db.children[x])
            && (forall k | 0 <= k < |db.ledger| ::
                  t.ledger[k] == db.ledger[k].(user := if db.ledger[k].user == src then dst else db.ledger[k].user))
  {
    hide MergedUsers, MergedReferrals, MergedRewards, MoveUses, DropUses;
    AllChildren();
  }

  /**
   A referral goes exactly if the source was its referee, or its referrer with the destination
   as referee, and takes its rewards along; a use of a code goes exactly if the destination
   has used the code too. All that stays is re-addressed and otherwise as it was.
   */
  lemma MergeKeepsEveryRowBut(db: DB, src: nat, dst: nat)
    requires src in db.users && src != dst
    ensures var t := Merged(db, src, dst);
            && t.referrals.Keys <= db.referrals.Keys && t.rewards.Keys <= db.rewards.Keys
            && t.uses.Keys <= db.uses.Keys
            && (forall r | r in db.referrals ::
                  var row := db.referrals[r];
                  if row.referee == src || (row.referrer == src && row.referee == dst) then r !in t.referrals
                  else r in t.referrals
                       && t.referrals[r] == row.(referrer := if row.referrer == src then dst else row.referrer))
            && (forall w | w in db.rewards ::
                  var row := db.rewards[w];
                  if row.referral !in t.referrals then w !in t.rewards
                  else w in t.rewards
                       && t.rewards[w] == row.(referrer := if row.referrer == src then dst else row.referrer))
            && (forall x | x in db.uses ::
                  var (code, u) := db.uses[x];
                  if u != src then x in t.uses && t.uses[x] == (code, u)
                  else if exists y | y in db.uses :: db.uses[y] == (code, dst) then x !in t.uses
                  else x in t.uses && t.uses[x] == (code, dst))
  {
  }

  /**
   Between two accounts that are there, a merge is refused exactly if re-addressing the payments
   or the expansion rows would break their unique index.
   */
  lemma MergeIsRefusedIff(db: DB, src: nat, dst: nat)
    requires Constraints(db) && src in db.users && dst in db.users && src != dst
    ensures CanMerge(db, src, dst) <==>
              && PendingUnique(MovePayments(db.payments, src, dst))
              && ExpansionUnique(MoveExpansions(db.expansions, src, dst))
  {
    PendingClashIff(db.payments, src, dst);
    ExpansionClashIff(db.expansions, src, dst);
  }

  lemma PendingClashIff(payments: map<nat, Payment>, src: nat, dst: nat)
    requires PendingUnique(payments) && src != dst
    ensures PendingClash(payments, src, dst) <==> !PendingUnique(MovePayments(payments, src, dst))
  {
    var moved := MovePayments(payments, src, dst);
    if PendingClash(payments, src, dst) {
      var p, q :| p in payments && q in payments && payments[p].status == PENDING && payments[q].status == PENDING
        && payments[p].user == src && payments[q].user == dst && payments[p].plan == payments[q].plan;
      assert p in moved && q in moved && moved[p].user == moved[q].user;
    }
  }

  lemma ExpansionClashIff(expansions: map<nat, DeviceExpansion>, src: nat, dst: nat)
    requires ExpansionUnique(expansions) && src != dst
    ensures ExpansionClash(expansions, src, dst) <==> !ExpansionUnique(MoveExpansions(expansions, src, dst))
  {
    var moved := MoveExpansions(expansions, src, dst);
    if ExpansionClash(expansions, src, dst) {
      var e, f :| e in expansions && f in expansions && expansions[e].user == src && expansions[f].user == dst;
      assert e in moved && f in moved && moved[e].user == moved[f].user;
    }
  }

  function Balances(users: map<nat, User>): map<nat, int> {
    map u | u in users :: users[u].balance
  }

  function Ltvs(users: map<nat, User>): map<nat, int> {
    map u | u in users :: users[u].ltv
  }

  lemma SumMoves(before: map<nat, int>, after: map<nat, int>, src: nat, dst: nat)
    requires src in before && dst in before && src != dst
    requires after.Keys == before.Keys - {src}
    requires forall u | u in after :: after[u] == before[u] + if u == dst then before[src] else 0
    ensures Sum(after) == Sum(before)
  {
    SumTake(before, src);
    assert after == (before - {src})[dst := before[dst] + before[src]];
    SumPut(before - {src}, dst, before[dst] + before[src]);
  }

  lemma TotalsMove(users: map<nat, User>, src: nat, dst: nat)
    requires src in users && dst in users && src != dst
    ensures var after := MergedUsers(users, src, dst);
            && after.Keys == users.Keys - {src}
            && forall u | u in after ::
                 && after[u].balance == users[u].balance + (if u == dst then users[src].balance else 0)
                 && after[u].ltv == users[u].ltv + (if u == dst then users[src].ltv else 0)
  {
  }

  /** A merge moves money between accounts and creates or destroys none. */
  lemma MergeConservesTotals(db: DB, src: nat, dst: nat)
    requires src in db.users && dst in db.users && src != dst
    ensures Sum(Balances(Merged(db, src, dst).users)) == Sum(Balances(db.users))
    ensures Sum(Ltvs(Merged(db, src, dst).users)) == Sum(Ltvs(db.users))
  {
    hide MergedUsers;
    TotalsMove(db.users, src, dst);
    SumMoves(Balances(db.users), Balances(MergedUsers(db.users, src, dst)), src, dst);
    SumMoves(Ltvs(db.users), Ltvs(MergedUsers(db.users, src, dst)), src, dst);
  }

  /** dst ends up with exactly the promos either account had used, in one row each. */
  lemma MergeUnitesPromoUses(db: DB, src: nat, dst: nat, p: nat, u: nat)
    requires src in db.users && src != dst && UsesUnique(db.uses)
    ensures var uses := Merged(db, src, dst).uses;
            && (UsedBy(uses, p, u) <==>
                  u != src && (UsedBy(db.uses, p, u) || (u == dst && UsedBy(db.uses, p, src))))
            && (forall x, y | x in uses && y in uses && uses[x] == (p, u) && uses[y] == (p, u) :: x == y)
  {
    var moved, uses := MoveUses(db.uses, src, dst), Merged(db, src, dst).uses;
    MovedUsesStayUnique(db.uses, src, dst);
    if UsedBy(db.uses, p, u) && u != src {
      var x :| x in db.uses && db.uses[x] == (p, u);
      assert x in uses && uses[x] == (p, u);
    }
    if u == dst && UsedBy(db.uses, p, src) && !UsedBy(db.uses, p, dst) {
      var x :| x in db.uses && db.uses[x] == (p, src);
      assert x in uses && uses[x] == (p, dst);
    }
    if UsedBy(uses, p, u) {
      var x :| x in uses && uses[x] == (p, u);
      assert db.uses[x] == (p, u) || (u == dst && db.uses[x] == (p, src));
    }
  }

  /** A merge into a missing account has nothing to move, so an account without money goes and the totals stand. */
  lemma RemovalConservesTotals(db: DB, src: nat, dst: nat)
    requires src in db.users && dst !in db.users && NothingToMove(db, src)
    requires db.users[src].balance == 0 && db.users[src].ltv == 0
    ensures Sum(Balances(Merged(db, src, dst).users)) == Sum(Balances(db.users))
    ensures Sum(Ltvs(Merged(db, src, dst).users)) == Sum(Ltvs(db.users))
  {
    var after := Merged(db, src, dst).users;
    assert after == db.users - {src};
    SumIgnoresZeros(Balances(after), Balances(db.users));
    SumIgnoresZeros(Ltvs(after), Ltvs(db.users));
  }

  /** The state before the source is deleted, when nothing had to be moved. */
  function WithoutReferee(db: DB, src: nat): DB {
    var ofSrc := OfReferee(db.referrals, src);
    db.(referrals := db.referrals - ofSrc, rewards := DropRewards(db.rewards, ofSrc))
  }

  lemma NothingMoves(db: DB, src: nat, dst: nat)
    requires src in db.users && dst !in db.users && NothingToMove(db, src)
    requires forall w | w in db.rewards :: db.rewards[w].referral in db.referrals
    ensures Merged(db, src, dst) == WithoutReferee(db, src).(users := db.users - {src})
  {
    NoRowMoves(db, src, dst);
    assert MergedUsers(db.users, src, dst) == db.users - {src};
  }

  lemma NoRowMoves(db: DB, src: nat, dst: nat)
    requires NothingToMove(db, src)
    ensures MovePayments(db.payments, src, dst) == db.payments && MoveSubs(db.subs, src, dst) == db.subs
    ensures MoveLedger(db.ledger, src, dst) == db.ledger && MoveCreators(db.promos, src, dst) == db.promos
    ensures DropUses(MoveUses(db.uses, src, dst), src) == db.uses
    ensures MoveExpansions(db.expansions, src, dst) == db.expansions
    ensures MoveChildren(db.children, ALL_CHILDREN, src, dst) == db.children
  {
  }
}
